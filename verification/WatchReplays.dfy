/**
 Replays: a watch that breaks is watched again from where it began, and the
 filter then judges events it has already judged, against a memory that may be
 of a later time. What it says of them, exactly.
 */
module WatchReplays {
  import opened Wrappers
  import Status
  import opened Watcher
  import opened WatchTraces

  function Memory(seen: map<Key, Seen>, key: Key): Option<Seen> {
    if key in seen then Some(seen[key]) else None
  }

  /** What a watcher that had handled exactly the first `n` events would remember. */
  function MemoryAt(start: Cluster, log: seq<Deed>, n: nat, key: Key): Option<Seen>
    requires n <= |log|
  {
    Memory(SeenOf(ClusterAt(start, log, n)), key)
  }

  ghost predicate Touched(start: Cluster, log: seq<Deed>, lo: nat, hi: nat, key: Key)
    requires hi <= |log|
  {
    exists n :: lo <= n < hi && KeyOf(start, log, n) == Some(key)
  }

  /** The key is remembered as of some moment between `lo` and `high`. */
  ghost predicate Recalled(start: Cluster, log: seq<Deed>, seen: map<Key, Seen>, lo: nat, high: nat, key: Key)
    requires high <= |log|
  {
    exists n :: lo <= n <= high && Memory(seen, key) == MemoryAt(start, log, n, key)
  }

  /**
   A watch from `lo` has handled the events up to `at`, and events up to `high`
   were handled before: a key the watch has touched is remembered as of `at`, one
   that nothing between `lo` and `high` touches as of `high`, and any other as of
   some moment in between.
   */
  ghost predicate Tracks(start: Cluster, log: seq<Deed>, seen: map<Key, Seen>, lo: nat, at: nat, high: nat) {
    && lo <= at <= high <= |log|
    && (forall key | Touched(start, log, lo, at, key) :: Memory(seen, key) == MemoryAt(start, log, at, key))
    && (forall key | !Touched(start, log, lo, high, key) :: Memory(seen, key) == MemoryAt(start, log, high, key))
    && (forall key :: Recalled(start, log, seen, lo, high, key))
  }

  // -- How a watcher keeps track -------------------------------------------------------------------

  /** Keys that are not touched stay as they are. */
  lemma {:induction false} UntouchedStays(start: Cluster, log: seq<Deed>, lo: nat, hi: nat, key: Key)
    requires lo <= hi <= |log| && !Touched(start, log, lo, hi, key)
    ensures MemoryAt(start, log, lo, key) == MemoryAt(start, log, hi, key)
    decreases hi - lo
  {
    if lo < hi {
      var last := hi - 1;
      assert KeyOf(start, log, last) != Some(key);
      forall n | lo <= n < last ensures KeyOf(start, log, n) != Some(key) {
      }
      UntouchedStays(start, log, lo, last, key);
      SeenFollows(ClusterAt(start, log, last), log[last]);
    }
  }

  lemma SameMemory(a: map<Key, Seen>, b: map<Key, Seen>)
    requires forall key :: Memory(a, key) == Memory(b, key)
    ensures a == b
  {
    forall key ensures key in a <==> key in b {
      assert Memory(a, key) == Memory(b, key);
    }
    forall key | key in a ensures a[key] == b[key] {
      assert Memory(a, key) == Memory(b, key);
    }
  }

  /** Having caught up, a watcher remembers the store. */
  lemma CaughtUp(start: Cluster, log: seq<Deed>, seen: map<Key, Seen>, lo: nat, high: nat)
    requires Tracks(start, log, seen, lo, high, high)
    ensures seen == SeenOf(ClusterAt(start, log, high))
  {
    var all := SeenOf(ClusterAt(start, log, high));
    forall key ensures Memory(seen, key) == Memory(all, key) {
      assert Memory(all, key) == MemoryAt(start, log, high, key);
      if Touched(start, log, lo, high, key) {}
    }
    SameMemory(seen, all);
  }

  /** A watcher that has just listed the store keeps track. */
  lemma ListedTracks(start: Cluster, log: seq<Deed>, n: nat)
    requires n <= |log|
    ensures Tracks(start, log, SeenOf(ClusterAt(start, log, n)), n, n, n)
  {
    forall key ensures Recalled(start, log, SeenOf(ClusterAt(start, log, n)), n, n, key) {
      assert MemoryAt(start, log, n, key) == Memory(SeenOf(ClusterAt(start, log, n)), key);
    }
  }

  /** Closing a watch at `at` and watching from there. */
  lemma ClosingKeepsTrack(start: Cluster, log: seq<Deed>, seen: map<Key, Seen>, lo: nat, at: nat, high: nat)
    requires Tracks(start, log, seen, lo, at, high)
    ensures Tracks(start, log, seen, at, at, high)
  {
    forall key
      ensures !Touched(start, log, at, high, key) ==> Memory(seen, key) == MemoryAt(start, log, high, key)
      ensures Recalled(start, log, seen, at, high, key)
    {
      if Touched(start, log, lo, at, key) {
        assert MemoryAt(start, log, at, key) == Memory(seen, key);
        if !Touched(start, log, at, high, key) { UntouchedStays(start, log, at, high, key); }
      } else {
        if !Touched(start, log, at, high, key) { assert !Touched(start, log, lo, high, key); }
        assert Recalled(start, log, seen, lo, high, key);
        var n :| lo <= n <= high && Memory(seen, key) == MemoryAt(start, log, n, key);
        if n < at {
          UntouchedStays(start, log, n, at, key);
          assert MemoryAt(start, log, at, key) == Memory(seen, key);
        }
      }
    }
  }

  /** Starting over from `lo`. */
  lemma BreakingKeepsTrack(start: Cluster, log: seq<Deed>, seen: map<Key, Seen>, lo: nat, at: nat, high: nat)
    requires Tracks(start, log, seen, lo, at, high)
    ensures Tracks(start, log, seen, lo, lo, high)
  {
  }

  lemma EventChangesItsKey(start: Cluster, log: seq<Deed>, seen: map<Key, Seen>, n: nat, key: Key)
    requires n < |log|
    ensures Memory(AfterEvent(start, log, seen, n), key) ==
            if KeyOf(start, log, n) == Some(key) then MemoryAt(start, log, n + 1, key) else Memory(seen, key)
    ensures KeyOf(start, log, n) != Some(key) ==> MemoryAt(start, log, n + 1, key) == MemoryAt(start, log, n, key)
  {
    SeenFollows(ClusterAt(start, log, n), log[n]);
  }

  /** What one key's memory is after the next event. */
  lemma HandlingTracksKey(start: Cluster, log: seq<Deed>, seen: map<Key, Seen>, lo: nat, at: nat, high: nat, next: nat, up: nat, key: Key)
    requires Tracks(start, log, seen, lo, at, high) && at < |log| && next == at + 1 && up == Max(high, next)
    ensures var after := AfterEvent(start, log, seen, at);
      && (Touched(start, log, lo, next, key) ==> Memory(after, key) == MemoryAt(start, log, next, key))
      && (!Touched(start, log, lo, up, key) ==> Memory(after, key) == MemoryAt(start, log, up, key))
      && Recalled(start, log, after, lo, up, key)
  {
    EventChangesItsKey(start, log, seen, at, key);
    if KeyOf(start, log, at) == Some(key) {
      assert Memory(AfterEvent(start, log, seen, at), key) == MemoryAt(start, log, next, key);
    } else {
      if Touched(start, log, lo, next, key) { assert Touched(start, log, lo, at, key); }
      if !Touched(start, log, lo, up, key) { assert !Touched(start, log, lo, high, key); }
      assert Recalled(start, log, seen, lo, high, key);
      var n :| lo <= n <= high && Memory(seen, key) == MemoryAt(start, log, n, key);
      assert Memory(AfterEvent(start, log, seen, at), key) == MemoryAt(start, log, n, key);
    }
  }

  /** Handling the next event keeps track, whether it is new or a replay. */
  lemma HandlingKeepsTrack(start: Cluster, log: seq<Deed>, seen: map<Key, Seen>, lo: nat, at: nat, high: nat, next: nat, up: nat)
    requires Tracks(start, log, seen, lo, at, high) && at < |log| && next == at + 1 && up == Max(high, next)
    ensures Tracks(start, log, AfterEvent(start, log, seen, at), lo, next, up)
  {
    forall key
      ensures var after := AfterEvent(start, log, seen, at);
        && (Touched(start, log, lo, next, key) ==> Memory(after, key) == MemoryAt(start, log, next, key))
        && (!Touched(start, log, lo, up, key) ==> Memory(after, key) == MemoryAt(start, log, up, key))
        && Recalled(start, log, after, lo, up, key)
    {
      HandlingTracksKey(start, log, seen, lo, at, high, next, up, key);
    }
  }

  // -- What is said of an event ---------------------------------------------------------------------------

  /** An event speaks of one key: what the filter says depends on what it remembers of that key. */
  lemma SpeaksOfItsKey(start: Cluster, log: seq<Deed>, a: map<Key, Seen>, b: map<Key, Seen>, n: nat)
    requires n < |log|
    requires KeyOf(start, log, n).Some? ==> Memory(a, KeyOf(start, log, n).value) == Memory(b, KeyOf(start, log, n).value)
    ensures Speaks(start, log, a, n) <==> Speaks(start, log, b, n)
  {
  }

  /** An event that has not been handled before is judged exactly. */
  lemma NewEventIsJudgedExactly(start: Cluster, log: seq<Deed>, seen: map<Key, Seen>, lo: nat, at: nat, high: nat)
    requires Tracks(start, log, seen, lo, at, high) && at == high < |log|
    ensures Speaks(start, log, seen, at) <==> IsLoud(start, log, at)
  {
    CaughtUp(start, log, seen, lo, high);
    FilterIsExact(ClusterAt(start, log, at), log[at]);
  }

  /** So is a replayed event of a key the watch has touched. */
  lemma TouchedEventIsJudgedExactly(start: Cluster, log: seq<Deed>, seen: map<Key, Seen>, lo: nat, at: nat, high: nat)
    requires Tracks(start, log, seen, lo, at, high) && at < |log|
    requires KeyOf(start, log, at).Some? && Touched(start, log, lo, at, KeyOf(start, log, at).value)
    ensures Speaks(start, log, seen, at) <==> IsLoud(start, log, at)
  {
    var store := SeenOf(ClusterAt(start, log, at));
    assert Memory(store, KeyOf(start, log, at).value) == MemoryAt(start, log, at, KeyOf(start, log, at).value);
    SpeaksOfItsKey(start, log, seen, store, at);
    FilterIsExact(ClusterAt(start, log, at), log[at]);
  }

  /** How an event looks to a watcher that remembers its key as of the store `earlier`. */
  predicate DiffersFrom(start: Cluster, log: seq<Deed>, at: nat, earlier: Cluster)
    requires at < |log| && KeyOf(start, log, at).Some?
  {
    var key, c := KeyOf(start, log, at).value, ClusterAt(start, log, at + 1);
    || log[at].Deletion?
    || key !in earlier
    || (key in c && (c[key].generation != earlier[key].generation || (earlier[key].stamp.Some? && c[key].stamp.None?)))
  }

  /**
   Any other replayed event is compared with the key as it was at some moment
   between the resumed position and the last event handled: it queues its key
   exactly when it is a deletion, the key was not there then, its generation was
   another, or it had a stamp that the event lacks.
   */
  lemma ReplayIsComparedWithAnotherMoment(start: Cluster, log: seq<Deed>, seen: map<Key, Seen>, lo: nat, at: nat, high: nat)
    returns (n: nat)
    requires Tracks(start, log, seen, lo, at, high) && at < |log| && KeyOf(start, log, at).Some?
    ensures lo <= n <= high && Memory(seen, KeyOf(start, log, at).value) == MemoryAt(start, log, n, KeyOf(start, log, at).value)
    ensures Speaks(start, log, seen, at) <==> DiffersFrom(start, log, at, ClusterAt(start, log, n))
  {
    var key := KeyOf(start, log, at).value;
    assert Recalled(start, log, seen, lo, high, key);
    n :| lo <= n <= high && Memory(seen, key) == MemoryAt(start, log, n, key);
    SpeaksOfItsKey(start, log, seen, SeenOf(ClusterAt(start, log, n)), at);
  }

  // -- Replays of the operator's own writes ---------------------------------------------------------------------

  ghost predicate OnlyOwnWrites(log: seq<Deed>, lo: nat, hi: nat) {
    forall n | lo <= n < hi && n < |log| :: log[n].StatusPatch? && IsOwn(log[n].patch)
  }

  predicate Stamped(c: Cluster, key: Key) { key in c && c[key].stamp.Some? }

  predicate RemembersStamp(seen: map<Key, Seen>, key: Key) { key in seen && seen[key].signing }

  /** Own writes neither make nor remove a publication, leave its generation alone, and never take a stamp away. */
  lemma {:induction false} OwnWritesOnlyStamp(start: Cluster, log: seq<Deed>, lo: nat, hi: nat, key: Key)
    requires lo <= hi <= |log| && OnlyOwnWrites(log, lo, hi)
    ensures var c, d := ClusterAt(start, log, lo), ClusterAt(start, log, hi);
      && (key in c <==> key in d)
      && (key in c ==> c[key].generation == d[key].generation)
      && (Stamped(c, key) ==> Stamped(d, key))
    decreases hi - lo
  {
    if lo < hi {
      OwnWritesOnlyStamp(start, log, lo, hi - 1, key);
      assert log[hi - 1].StatusPatch? && IsOwn(log[hi - 1].patch);
      OwnPatchesKeepTheStamp(log[hi - 1].patch, ClusterAt(start, log, hi - 1), key);
    }
  }

  lemma OwnWriteIsNotLoud(start: Cluster, log: seq<Deed>, n: nat)
    requires n < |log| && log[n].StatusPatch? && IsOwn(log[n].patch)
    ensures !IsLoud(start, log, n)
  {
    OwnPatchesKeepTheStamp(log[n].patch, ClusterAt(start, log, n), log[n].key);
  }

  /** An own write against the store of another moment, with only own writes in between. */
  lemma OwnWriteDiffersByStamp(start: Cluster, log: seq<Deed>, at: nat, next: nat, n: nat)
    requires at < |log| && next == at + 1 && n <= |log| && KeyOf(start, log, at).Some? && log[at].StatusPatch?
    requires OnlyOwnWrites(log, n, next) && OnlyOwnWrites(log, next, n)
    ensures var key := KeyOf(start, log, at).value;
      DiffersFrom(start, log, at, ClusterAt(start, log, n)) <==>
        Stamped(ClusterAt(start, log, n), key) && !Stamped(ClusterAt(start, log, next), key)
  {
    var key := KeyOf(start, log, at).value;
    if n <= next {
      OwnWritesOnlyStamp(start, log, n, next, key);
    } else {
      OwnWritesOnlyStamp(start, log, next, n, key);
    }
  }

  /** Among own writes alone, an event queues its key exactly when the watcher remembers a stamp that the event does not have yet. */
  lemma OwnReplayIsQueuedExactly(start: Cluster, log: seq<Deed>, seen: map<Key, Seen>, lo: nat, at: nat, high: nat, next: nat)
    requires Tracks(start, log, seen, lo, at, high) && at < high && next == at + 1 && OnlyOwnWrites(log, lo, high)
    requires KeyOf(start, log, at).Some?
    ensures var key := KeyOf(start, log, at).value;
      Speaks(start, log, seen, at) <==> RemembersStamp(seen, key) && !Stamped(ClusterAt(start, log, next), key)
  {
    var key := KeyOf(start, log, at).value;
    var n := ReplayIsComparedWithAnotherMoment(start, log, seen, lo, at, high);
    assert log[at].StatusPatch?;
    OwnWriteDiffersByStamp(start, log, at, next, n);
  }

  /** What a watch from `lo` remembers once it has come to `at`. */
  function ReplayedTo(start: Cluster, log: seq<Deed>, seen: map<Key, Seen>, lo: nat, at: nat): map<Key, Seen>
    requires lo <= at <= |log|
    decreases at
  {
    if at == lo then seen else AfterEvent(start, log, ReplayedTo(start, log, seen, lo, at - 1), at - 1)
  }

  lemma {:induction false} ReplayTracks(start: Cluster, log: seq<Deed>, seen: map<Key, Seen>, lo: nat, at: nat, high: nat)
    requires Tracks(start, log, seen, lo, lo, high) && lo <= at <= high
    ensures Tracks(start, log, ReplayedTo(start, log, seen, lo, at), lo, at, high)
    decreases at
  {
    if lo < at {
      var last := at - 1;
      ReplayTracks(start, log, seen, lo, last, high);
      HandlingKeepsTrack(start, log, ReplayedTo(start, log, seen, lo, last), lo, last, high, at, high);
    }
  }

  lemma {:induction false} ReplayLeavesUntouched(start: Cluster, log: seq<Deed>, seen: map<Key, Seen>, lo: nat, at: nat, key: Key)
    requires lo <= at <= |log| && !Touched(start, log, lo, at, key)
    ensures Memory(ReplayedTo(start, log, seen, lo, at), key) == Memory(seen, key)
    decreases at
  {
    if lo < at {
      var last := at - 1;
      assert KeyOf(start, log, last) != Some(key);
      forall n | lo <= n < last ensures KeyOf(start, log, n) != Some(key) {
      }
      ReplayLeavesUntouched(start, log, seen, lo, last, key);
      EventChangesItsKey(start, log, ReplayedTo(start, log, seen, lo, last), last, key);
    }
  }

  /** A watch from `lo` over the events up to `high` queues nothing. */
  ghost predicate ReplaysSilently(start: Cluster, log: seq<Deed>, seen: map<Key, Seen>, lo: nat, high: nat)
    requires lo <= high <= |log|
  {
    forall at | lo <= at < high :: !Speaks(start, log, ReplayedTo(start, log, seen, lo, at), at)
  }

  /** The event shows the stamp of its publication, or the watcher remembers none. */
  predicate ShowsStamp(start: Cluster, log: seq<Deed>, seen: map<Key, Seen>, at: nat)
    requires at < |log|
  {
    KeyOf(start, log, at).Some? && RemembersStamp(seen, KeyOf(start, log, at).value) ==>
      Stamped(ClusterAt(start, log, at + 1), KeyOf(start, log, at).value)
  }

  /** No event between `lo` and `high` shows a publication without a stamp that the watcher remembers it with. */
  ghost predicate NoStampForeseen(start: Cluster, log: seq<Deed>, seen: map<Key, Seen>, lo: nat, high: nat)
    requires lo <= high <= |log|
  {
    forall at | lo <= at < high :: ShowsStamp(start, log, seen, at)
  }

  lemma {:induction false} FirstTouch(start: Cluster, log: seq<Deed>, lo: nat, at: nat, key: Key) returns (f: nat)
    requires lo <= at < |log| && KeyOf(start, log, at) == Some(key)
    ensures lo <= f <= at && KeyOf(start, log, f) == Some(key) && !Touched(start, log, lo, f, key)
    decreases at
  {
    f := at;
    if Touched(start, log, lo, at, key) {
      var n :| lo <= n < at && KeyOf(start, log, n) == Some(key);
      f := FirstTouch(start, log, lo, n, key);
    }
  }

  /** The first own write to a key that a watch replays. */
  lemma FirstOwnReplay(start: Cluster, log: seq<Deed>, seen: map<Key, Seen>, lo: nat, at: nat, high: nat, next: nat, key: Key)
    requires Tracks(start, log, seen, lo, lo, high) && OnlyOwnWrites(log, lo, high) && lo <= at < high && next == at + 1
    requires KeyOf(start, log, at) == Some(key) && !Touched(start, log, lo, at, key)
    ensures Speaks(start, log, ReplayedTo(start, log, seen, lo, at), at) <==>
            RemembersStamp(seen, key) && !Stamped(ClusterAt(start, log, next), key)
  {
    var now := ReplayedTo(start, log, seen, lo, at);
    ReplayTracks(start, log, seen, lo, at, high);
    ReplayLeavesUntouched(start, log, seen, lo, at, key);
    assert Memory(now, key) == Memory(seen, key);
    OwnReplayIsQueuedExactly(start, log, now, lo, at, high, next);
  }

  /** A later one queues nothing. */
  lemma LaterOwnReplay(start: Cluster, log: seq<Deed>, seen: map<Key, Seen>, lo: nat, at: nat, high: nat)
    requires Tracks(start, log, seen, lo, lo, high) && OnlyOwnWrites(log, lo, high) && lo <= at < high
    requires KeyOf(start, log, at).Some? && Touched(start, log, lo, at, KeyOf(start, log, at).value)
    ensures !Speaks(start, log, ReplayedTo(start, log, seen, lo, at), at)
  {
    ReplayTracks(start, log, seen, lo, at, high);
    TouchedEventIsJudgedExactly(start, log, ReplayedTo(start, log, seen, lo, at), lo, at, high);
    OwnWriteIsNotLoud(start, log, at);
  }

  lemma ForeseenMeansSilent(start: Cluster, log: seq<Deed>, seen: map<Key, Seen>, lo: nat, at: nat, high: nat)
    requires Tracks(start, log, seen, lo, lo, high) && OnlyOwnWrites(log, lo, high) && lo <= at < high
    requires ShowsStamp(start, log, seen, at)
    ensures !Speaks(start, log, ReplayedTo(start, log, seen, lo, at), at)
  {
    if KeyOf(start, log, at).Some? {
      if Touched(start, log, lo, at, KeyOf(start, log, at).value) {
        LaterOwnReplay(start, log, seen, lo, at, high);
      } else {
        var next := at + 1;
        FirstOwnReplay(start, log, seen, lo, at, high, next, KeyOf(start, log, at).value);
      }
    }
  }

  lemma StampLasts(start: Cluster, log: seq<Deed>, lo: nat, n: nat, m: nat, high: nat, key: Key)
    requires lo <= n <= m <= high <= |log| && OnlyOwnWrites(log, lo, high) && Stamped(ClusterAt(start, log, n), key)
    ensures Stamped(ClusterAt(start, log, m), key)
  {
    OwnWritesOnlyStamp(start, log, n, m, key);
  }

  lemma SilentMeansForeseen(start: Cluster, log: seq<Deed>, seen: map<Key, Seen>, lo: nat, at: nat, high: nat)
    requires Tracks(start, log, seen, lo, lo, high) && OnlyOwnWrites(log, lo, high) && lo <= at < high
    requires ReplaysSilently(start, log, seen, lo, high)
    ensures ShowsStamp(start, log, seen, at)
  {
    if KeyOf(start, log, at).Some? && RemembersStamp(seen, KeyOf(start, log, at).value) {
      var key := KeyOf(start, log, at).value;
      var f := FirstTouch(start, log, lo, at, key);
      var after, next := f + 1, at + 1;
      FirstOwnReplay(start, log, seen, lo, f, high, after, key);
      StampLasts(start, log, lo, after, next, high, key);
    }
  }

  /**
   When only the operator's own writes lie between a resumed position and the
   last event handled, watching them again queues nothing exactly when none of
   them shows a publication without a stamp that the watcher remembers it with.
   */
  lemma OwnReplayIsSilentExactly(start: Cluster, log: seq<Deed>, seen: map<Key, Seen>, lo: nat, high: nat)
    requires Tracks(start, log, seen, lo, lo, high) && OnlyOwnWrites(log, lo, high)
    ensures ReplaysSilently(start, log, seen, lo, high) <==> NoStampForeseen(start, log, seen, lo, high)
  {
    if NoStampForeseen(start, log, seen, lo, high) {
      forall at | lo <= at < high ensures !Speaks(start, log, ReplayedTo(start, log, seen, lo, at), at) {
        ForeseenMeansSilent(start, log, seen, lo, at, high);
      }
    }
    if ReplaysSilently(start, log, seen, lo, high) {
      forall at | lo <= at < high ensures ShowsStamp(start, log, seen, at) {
        SilentMeansForeseen(start, log, seen, lo, at, high);
      }
    }
  }

  /** The publication an event writes to was stamped at the resumed position, or is remembered without a stamp. */
  ghost predicate StampedBefore(start: Cluster, log: seq<Deed>, seen: map<Key, Seen>, lo: nat, at: nat)
    requires lo <= |log| && at < |log|
  {
    KeyOf(start, log, at).Some? ==>
      var key := KeyOf(start, log, at).value; Stamped(ClusterAt(start, log, lo), key) || !RemembersStamp(seen, key)
  }

  lemma StampedBeforeForesees(start: Cluster, log: seq<Deed>, seen: map<Key, Seen>, lo: nat, at: nat, high: nat)
    requires lo <= at < high <= |log| && OnlyOwnWrites(log, lo, high) && StampedBefore(start, log, seen, lo, at)
    ensures ShowsStamp(start, log, seen, at)
  {
    if KeyOf(start, log, at).Some? && RemembersStamp(seen, KeyOf(start, log, at).value) {
      var next := at + 1;
      StampLasts(start, log, lo, lo, next, high, KeyOf(start, log, at).value);
    }
  }

  /** It does if that holds of every event. */
  lemma StampedBeforeMeansSilent(start: Cluster, log: seq<Deed>, seen: map<Key, Seen>, lo: nat, high: nat)
    requires Tracks(start, log, seen, lo, lo, high) && OnlyOwnWrites(log, lo, high)
    requires forall at | lo <= at < high :: StampedBefore(start, log, seen, lo, at)
    ensures ReplaysSilently(start, log, seen, lo, high)
  {
    forall at | lo <= at < high ensures ShowsStamp(start, log, seen, at) {
      StampedBeforeForesees(start, log, seen, lo, at, high);
    }
    OwnReplayIsSilentExactly(start, log, seen, lo, high);
  }

  // -- A replay that is not silent ---------------------------------------------------------------------------------

  const FAILURE: Status.Write := Status.Plain(Status.Error, "", None)
  const STAMP: Status.Write := Status.Plain(Status.Pending, "", None).(markSigning := true)

  /**
   A failure recorded on a publication that has never been signed for, and then,
   over the status that leaves, the stamp of its first round.
   */
  function TwoOwnWrites(key: Key): seq<Deed> {
    var failed := Status.Written(Status.Empty, Some(1), FAILURE, 0);
    [StatusPatch(key, Status.PatchOf(Status.Empty, Some(1), FAILURE, 0)),
     StatusPatch(key, Status.PatchOf(failed, Some(1), STAMP, 0))]
  }

  /**
   Two own writes are handled, the watch breaks, and its position is watched
   again: the first write now queues its key, because the watcher remembers the
   stamp that only the second one set.
   */
  lemma OwnReplayMayBeHeard(key: Key)
    ensures var start, log := map[key := Publication(1, None)], TwoOwnWrites(key);
      var seen := ReplayedTo(start, log, SeenOf(start), 0, 2);
      && OnlyOwnWrites(log, 0, 2) && Tracks(start, log, seen, 0, 0, 2)
      && !Speaks(start, log, SeenOf(start), 0) && Speaks(start, log, seen, 0)
  {
    var start, log := map[key := Publication(1, None)], TwoOwnWrites(key);
    var first, seen := SeenOf(start), ReplayedTo(start, log, SeenOf(start), 0, 2);
    forall n | 0 <= n < 2 ensures log[n].StatusPatch? && IsOwn(log[n].patch) {
    }
    assert ClusterAt(start, log, 0) == start;
    ListedTracks(start, log, 0);
    HandlingKeepsTrack(start, log, first, 0, 0, 0, 1, 1);
    var once := AfterEvent(start, log, first, 0);
    assert ReplayedTo(start, log, first, 0, 1) == once;
    HandlingKeepsTrack(start, log, once, 0, 1, 1, 2, 2);
    BreakingKeepsTrack(start, log, seen, 0, 2, 2);
    assert ClusterAt(start, log, 1) == start;
  }
}
