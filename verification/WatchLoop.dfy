/**
 The watcher's list/watch/resume loop, run against any sequence of replies, with
 a stop that may arrive at any point.
 */
module WatchLoop {
  import opened Wrappers
  import opened Watcher
  import opened WatchTraces
  import opened WatchReplays
  import opened WatchCourse

  // -- Sound traces --------------------------------------------------------------------------------

  /**
   A list names every publication there was; a position watched from skips
   nothing since a list still in force; and an event queues its key exactly when
   the filter says so, over a memory that keeps track of the watch.
   */
  ghost predicate InOrder(start: Cluster, log: seq<Deed>, before: seq<Mark>, x: Mark) {
    match x
    case Listed(n, keys) => n <= |log| && Enumerates(keys, ClusterAt(start, log, n))
    case Resumed(n) => exists anchor: nat :: NothingSkipped(start, log, before, anchor, n)
    case Handled(i, queued) =>
      && i < |log|
      && (queued <==> Speaks(start, log, SeenBy(start, log, before), i))
      && Tracks(start, log, SeenBy(start, log, before), WatchedFrom(before), i, HighWater(before))
    case Lost(_) => true
  }

  ghost predicate SoundAt(start: Cluster, log: seq<Deed>, trace: seq<Mark>, m: nat)
    requires m < |trace|
  {
    InOrder(start, log, trace[..m], trace[m])
  }

  ghost predicate Sound(start: Cluster, log: seq<Deed>, trace: seq<Mark>) {
    forall m: nat | m < |trace| :: SoundAt(start, log, trace, m)
  }

  /** The first time an event is handled since a list, it queues its key exactly if somebody made the change. */
  lemma FirstHearingIsExact(start: Cluster, log: seq<Deed>, trace: seq<Mark>, m: nat)
    requires Sound(start, log, trace) && m < |trace| && trace[m].Handled? && trace[m].index >= HighWater(trace[..m])
    ensures trace[m].index < |log| && (trace[m].queued <==> IsLoud(start, log, trace[m].index))
  {
    var before := trace[..m];
    assert SoundAt(start, log, trace, m);
    NewEventIsJudgedExactly(start, log, SeenBy(start, log, before), WatchedFrom(before), trace[m].index, HighWater(before));
  }

  /** So does a replayed one, once the watch in progress has handled another event of its key. */
  lemma LaterHearingIsExact(start: Cluster, log: seq<Deed>, trace: seq<Mark>, m: nat)
    requires Sound(start, log, trace) && m < |trace| && trace[m].Handled? && trace[m].index < |log|
    requires KeyOf(start, log, trace[m].index).Some?
    requires Touched(start, log, WatchedFrom(trace[..m]), trace[m].index, KeyOf(start, log, trace[m].index).value)
    ensures trace[m].queued <==> IsLoud(start, log, trace[m].index)
  {
    var before := trace[..m];
    assert SoundAt(start, log, trace, m);
    TouchedEventIsJudgedExactly(start, log, SeenBy(start, log, before), WatchedFrom(before), trace[m].index, HighWater(before));
  }

  /**
   Any other replayed event is compared with its publication as it was at some
   moment between the position watched from and the last event handled.
   */
  lemma ReplayIsHeardAgainstAnotherMoment(start: Cluster, log: seq<Deed>, trace: seq<Mark>, m: nat) returns (n: nat)
    requires Sound(start, log, trace) && m < |trace| && trace[m].Handled? && trace[m].index < |log|
    requires KeyOf(start, log, trace[m].index).Some?
    ensures WatchedFrom(trace[..m]) <= n <= HighWater(trace[..m]) <= |log|
    ensures trace[m].queued <==> DiffersFrom(start, log, trace[m].index, ClusterAt(start, log, n))
  {
    var before := trace[..m];
    assert SoundAt(start, log, trace, m);
    n := ReplayIsComparedWithAnotherMoment(
      start, log, SeenBy(start, log, before), WatchedFrom(before), trace[m].index, HighWater(before));
  }

  /** Among the operator's own writes, a replayed event queues its key exactly when the watcher remembers a stamp it lacks. */
  lemma OwnReplayIsHeardExactly(start: Cluster, log: seq<Deed>, trace: seq<Mark>, m: nat, next: nat)
    requires Sound(start, log, trace) && m < |trace| && trace[m].Handled? && next == trace[m].index + 1
    requires next <= HighWater(trace[..m]) <= |log| && KeyOf(start, log, trace[m].index).Some?
    requires OnlyOwnWrites(log, WatchedFrom(trace[..m]), HighWater(trace[..m]))
    ensures var key := KeyOf(start, log, trace[m].index).value;
      trace[m].queued <==>
        RemembersStamp(SeenBy(start, log, trace[..m]), key) && !Stamped(ClusterAt(start, log, next), key)
  {
    var before := trace[..m];
    assert SoundAt(start, log, trace, m);
    OwnReplayIsQueuedExactly(
      start, log, SeenBy(start, log, before), WatchedFrom(before), trace[m].index, HighWater(before), next);
  }

  /** Every change somebody made since the listing in force, up to a position nothing was skipped to, is among the keys queued. */
  lemma LoudIsQueued(start: Cluster, log: seq<Deed>, trace: seq<Mark>, anchor: nat, position: nat, e: nat)
    requires NothingSkipped(start, log, trace, anchor, position)
    requires trace[anchor].position <= e < position && IsLoud(start, log, e)
    ensures KeyOf(start, log, e).Some? && KeyOf(start, log, e).value in QueuedBy(start, log, trace)
  {
    assert HandedOver(start, log, trace, anchor, e);
    var m: nat :| anchor < m < |trace| && trace[m].Handled? && trace[m].index == e && trace[m].queued;
    FilterIsExact(ClusterAt(start, log, e), log[e]);
    QueuedStays(start, log, trace, m, KeyOf(start, log, e).value);
  }

  /** So is every publication a list returned. */
  lemma ListedIsQueued(start: Cluster, log: seq<Deed>, trace: seq<Mark>, m: nat, key: Key)
    requires Sound(start, log, trace) && m < |trace| && trace[m].Listed?
    requires trace[m].position <= |log| && key in ClusterAt(start, log, trace[m].position)
    ensures key in QueuedBy(start, log, trace)
  {
    assert SoundAt(start, log, trace, m);
    QueuedStays(start, log, trace, m, key);
  }

  // -- How a sound trace grows -----------------------------------------------------------------------

  lemma SoundGrows(start: Cluster, log: seq<Deed>, trace: seq<Mark>, x: Mark)
    requires Sound(start, log, trace) && InOrder(start, log, trace, x)
    ensures Sound(start, log, trace + [x])
  {
    var longer := trace + [x];
    forall m: nat | m < |longer| ensures SoundAt(start, log, longer, m) {
      if m < |trace| {
        assert SoundAt(start, log, trace, m) && longer[..m] == trace[..m];
      } else {
        assert longer[..m] == trace;
      }
    }
  }

  lemma HandedOverLater(start: Cluster, log: seq<Deed>, trace: seq<Mark>, x: Mark, anchor: nat, e: nat)
    requires e < |log| && HandedOver(start, log, trace, anchor, e)
    ensures HandedOver(start, log, trace + [x], anchor, e)
  {
    var m: nat :| anchor < m < |trace| && trace[m].Handled? && trace[m].index == e && (IsLoud(start, log, e) ==> trace[m].queued);
    assert (trace + [x])[m] == trace[m];
  }

  lemma SkipsNothingLater(start: Cluster, log: seq<Deed>, trace: seq<Mark>, x: Mark, anchor: nat, position: nat)
    requires NothingSkipped(start, log, trace, anchor, position) && (x.Resumed? || x.Handled?)
    ensures NothingSkipped(start, log, trace + [x], anchor, position)
  {
    forall e: nat | trace[anchor].position <= e < position ensures HandedOver(start, log, trace + [x], anchor, e) {
      HandedOverLater(start, log, trace, x, anchor, e);
    }
    assert (trace + [x])[anchor] == trace[anchor];
  }

  /** Handling the next event leaves nothing skipped up to it. */
  lemma HandlingSkipsNothing(start: Cluster, log: seq<Deed>, trace: seq<Mark>, x: Mark, anchor: nat, high: nat, up: nat)
    requires NothingSkipped(start, log, trace, anchor, high) && x.Handled? && x.index <= high && x.index < |log|
    requires x.index == high ==> (IsLoud(start, log, high) ==> x.queued)
    requires up == Max(high, x.index + 1)
    ensures NothingSkipped(start, log, trace + [x], anchor, up)
  {
    SkipsNothingLater(start, log, trace, x, anchor, high);
    if x.index == high {
      assert (trace + [x])[|trace|] == x;
      assert HandedOver(start, log, trace + [x], anchor, high);
    }
  }

  /** A watch from `lo` is at `at`: everything since the listing at `anchor` is accounted for. */
  ghost predicate Follows(start: Cluster, log: seq<Deed>, trace: seq<Mark>, anchor: nat, lo: nat, at: nat) {
    && Sound(start, log, trace)
    && Tracks(start, log, SeenBy(start, log, trace), lo, at, HighWater(trace))
    && NothingSkipped(start, log, trace, anchor, HighWater(trace))
    && trace[anchor].position <= lo
  }

  lemma ListingFollows(start: Cluster, log: seq<Deed>, trace: seq<Mark>, x: Mark)
    requires Sound(start, log, trace) && x.Listed? && InOrder(start, log, trace, x)
    ensures Follows(start, log, trace + [x], |trace|, x.position, x.position)
  {
    SoundGrows(start, log, trace, x);
    TraceGrows(trace, x);
    AccountGrows(start, log, trace, x);
    ListedTracks(start, log, x.position);
  }

  lemma LessSkipsNothing(start: Cluster, log: seq<Deed>, trace: seq<Mark>, anchor: nat, high: nat, position: nat)
    requires NothingSkipped(start, log, trace, anchor, high) && trace[anchor].position <= position <= high
    ensures NothingSkipped(start, log, trace, anchor, position)
  {
  }

  lemma ResumingFollows(start: Cluster, log: seq<Deed>, trace: seq<Mark>, anchor: nat, lo: nat)
    requires Follows(start, log, trace, anchor, lo, lo)
    ensures Follows(start, log, trace + [Resumed(lo)], anchor, lo, lo)
  {
    LessSkipsNothing(start, log, trace, anchor, HighWater(trace), lo);
    SoundGrows(start, log, trace, Resumed(lo));
    TraceGrows(trace, Resumed(lo));
    AccountGrows(start, log, trace, Resumed(lo));
    SkipsNothingLater(start, log, trace, Resumed(lo), anchor, HighWater(trace));
  }

  /** A watch that closes is resumed where it got to; one that breaks, where it began. */
  lemma StoppingFollows(start: Cluster, log: seq<Deed>, trace: seq<Mark>, anchor: nat, lo: nat, at: nat)
    requires Follows(start, log, trace, anchor, lo, at)
    ensures Follows(start, log, trace, anchor, at, at)
    ensures Follows(start, log, trace, anchor, lo, lo)
  {
    ClosingKeepsTrack(start, log, SeenBy(start, log, trace), lo, at, HighWater(trace));
    BreakingKeepsTrack(start, log, SeenBy(start, log, trace), lo, at, HighWater(trace));
  }

  /** Handling the next event: the heart of the loop. */
  lemma HandlingFollows(start: Cluster, log: seq<Deed>, trace: seq<Mark>, anchor: nat, lo: nat, at: nat, next: nat, x: Mark)
    requires Follows(start, log, trace, anchor, lo, at) && WatchedFrom(trace) == lo && at < |log| && next == at + 1
    requires x == Handled(at, Speaks(start, log, SeenBy(start, log, trace), at))
    ensures Follows(start, log, trace + [x], anchor, lo, next)
  {
    var seen, high := SeenBy(start, log, trace), HighWater(trace);
    var up := Max(high, next);
    if at == high { NewEventIsJudgedExactly(start, log, seen, lo, at, high); }
    SoundGrows(start, log, trace, x);
    TraceGrows(trace, x);
    AccountGrows(start, log, trace, x);
    HandlingKeepsTrack(start, log, seen, lo, at, high, next, up);
    HandlingSkipsNothing(start, log, trace, x, anchor, high, up);
  }

  lemma OneMoreListed(items: Cluster, left: set<Key>, key: Key, listed: seq<Key>)
    requires key in left && left <= items.Keys && Enumerates(listed, items - left)
    ensures Enumerates(listed + [key], items - (left - {key}))
    ensures SeenOf(items - (left - {key})) == SeenOf(items - left)[key := SeenState(items[key])]
  {
    var longer := listed + [key];
    forall k ensures k in longer <==> k in items - (left - {key}) {
      assert k in longer <==> k in listed || k == key;
    }
    assert key !in listed;
  }

  /** What a list does to the account of a trace. */
  lemma ListingIsAccounted(start: Cluster, log: seq<Deed>, trace: seq<Mark>, position: nat, keys: seq<Key>)
    requires position <= |log|
    ensures SeenAfter(start, log, SeenBy(start, log, trace), Listed(position, keys)) == SeenOf(ClusterAt(start, log, position))
    ensures HandedBy(start, log, Listed(position, keys)) == keys
  {
  }

  /** What handling an event does to it. */
  lemma HandlingIsAccounted(start: Cluster, log: seq<Deed>, trace: seq<Mark>, n: nat, queued: bool)
    requires n < |log| && queued == Speaks(start, log, SeenBy(start, log, trace), n)
    ensures var seen := SeenBy(start, log, trace);
      SeenAfter(start, log, seen, Handled(n, queued)) == AfterEvent(start, log, seen, n)
    ensures HandedBy(start, log, Handled(n, queued)) ==
            if queued then [EventOf(ClusterAt(start, log, n), log[n]).value.key] else []
  {
  }

  /**
   What `Run` leaves behind after a turn whose list or watch failed with a 410 or a
   refused access: nothing is watched before something has been listed anew.
   */
  lemma LostPositionsAreRelisted(
    trace: seq<Mark>, size: nat, stopped: bool, before: seq<Mark>, rounds: seq<Round>, i: nat, next: nat, m: nat,
    position: nat, failure: Failure)
    requires Bare(trace) == CourseOf(size, stopped, before, rounds, |rounds|).marks
    requires next == i + 1 && next <= |rounds| && !CourseOf(size, stopped, before, rounds, i).stopped && position <= size
    requires FailsWith(size, CourseOf(size, stopped, before, rounds, i).held, rounds[i], position, failure)
    requires failure == Expired || failure == AccessLost
    requires |CourseOf(size, stopped, before, rounds, next).marks| <= m < |trace| && trace[m].Resumed?
    ensures exists l :: |CourseOf(size, stopped, before, rounds, next).marks| <= l < m && trace[l].Listed?
  {
    var lost, marks := |CourseOf(size, stopped, before, rounds, next).marks|, Bare(trace);
    FatalFailureMeansRelisting(size, stopped, before, rounds, i, next, |rounds|, position, failure);
    assert marks[m] == BareMark(trace[m]) && ListedBetween(marks, lost, m);
    var l :| lost <= l < m && marks[l].Listed?;
    assert marks[l] == BareMark(trace[l]);
  }

  // -- The loop ------------------------------------------------------------------------------------

  class WatchThread {
    const start: Cluster
    const log: seq<Deed>
    var seen: map<Key, Seen>
    var synced: bool
    var stopping: bool
    var queued: seq<Key>        // the keys handed to the queue, first to last
    ghost var trace: seq<Mark>

    constructor (start: Cluster, log: seq<Deed>)
      ensures this.start == start && this.log == log && trace == [] && !stopping && Valid() && Sound(start, log, trace)
    {
      this.start, this.log := start, log;
      seen, synced, stopping, queued, trace := map[], false, false, [], [];
    }

    /** The memory, the keys queued and the readiness flag are what the trace makes of them. */
    ghost predicate Valid()
      reads this
    {
      && seen == SeenBy(start, log, trace)
      && queued == QueuedBy(start, log, trace)
      && synced == InTouch(trace)
    }

    /** The loop has taken this course. */
    ghost predicate OnCourse(c: Course, position: Option<nat>)
      reads this
    {
      c.held == position && c.stopped == stopping && c.marks == Bare(trace)
    }

    /** A watch from `lo` is at `at`, with everything accounted for since some listing still in force. */
    ghost predicate Following(lo: nat, at: nat)
      reads this
    {
      exists anchor: nat :: Follows(start, log, trace, anchor, lo, at)
    }

    /**
     The trace is sound, every list in it since mark `since` was called for, and
     while the loop goes on the position it holds is accounted for.
     */
    ghost predicate Stands(position: Option<nat>, since: nat)
      reads this
    {
      && Valid() && Sound(start, log, trace)
      && RelistsOnlyWhenLost(trace, since) && (position.None? ==> AllOutdated(trace, since))
      && (position.Some? ==> synced)
      && (position.Some? && !stopping ==> Following(position.value, position.value))
    }

    /** Records what has just been done. */
    ghost method Note(x: Mark)
      requires seen == SeenAfter(start, log, SeenBy(start, log, trace), x)
      requires queued == QueuedBy(start, log, trace) + HandedBy(start, log, x)
      requires synced == (x.Listed? || (InTouch(trace) && !(x.Lost? && x.access)))
      modifies this`trace
      ensures Valid() && trace == old(trace) + [x] && Bare(trace) == Bare(old(trace)) + [BareMark(x)]
    {
      TraceGrows(trace, x);
      AccountGrows(start, log, trace, x);
      BareGrows(trace, x);
      trace := trace + [x];
    }

    /** The body of `_sync` after a list: forget everything, then remember and queue every publication, in any order. */
    method Remember(items: Cluster) returns (ghost listed: seq<Key>)
      modifies this`seen, this`queued
      ensures seen == SeenOf(items) && queued == old(queued) + listed && Enumerates(listed, items)
    {
      var left := items.Keys;
      seen := map[];
      listed := [];
      assert items - left == map[];
      while left != {}
        invariant left <= items.Keys
        invariant seen == SeenOf(items - left) && Enumerates(listed, items - left)
        invariant queued == old(queued) + listed
        decreases |left|
      {
        var key :| key in left;
        OneMoreListed(items, left, key, listed);
        left := left - {key};
        seen := seen[key := SeenState(items[key])];
        queued := queued + [key];
        listed := listed + [key];
      }
      assert items - {} == items;
    }

    /** `_sync` */
    method Sync(position: nat) returns (ghost x: Mark)
      requires Valid() && Sound(start, log, trace) && position <= |log|
      modifies this`seen, this`synced, this`queued, this`trace
      ensures Valid() && synced && Follows(start, log, trace, |old(trace)|, position, position)
      ensures trace == old(trace) + [x] && x.Listed? && x.position == position
      ensures Bare(trace) == Bare(old(trace)) + [Listed(position, [])]
    {
      ghost var listed := Remember(ClusterAt(start, log, position));
      synced := true;
      x := Listed(position, listed);
      ListingFollows(start, log, trace, x);
      ListingIsAccounted(start, log, trace, position, listed);
      Note(x);
    }

    /** `_spec_changed` */
    method DecideAndRemember(e: Event) returns (changed: bool)
      modifies this`seen
      ensures changed == SpecChanged(old(seen), e) && seen == Remembered(old(seen), e)
    {
      if e.deleted {
        seen := seen - {e.key};
        return true;
      }
      var previous := if e.key in seen then Some(seen[e.key]) else None;
      seen := seen[e.key := e.current];
      if previous.None? || e.current.generation.None? {
        return true;
      }
      if e.current.generation != previous.value.generation {
        return true;
      }
      return previous.value.signing && !e.current.signing;
    }

    /** `_handle` of the log's event `n`. */
    method Handle(n: nat)
      requires Valid() && n < |log|
      modifies this`seen, this`queued, this`trace
      ensures Valid() && trace == old(trace) + [Handled(n, Speaks(start, log, old(seen), n))]
      ensures Bare(trace) == Bare(old(trace)) + [Handled(n, false)]
    {
      var e := EventOf(ClusterAt(start, log, n), log[n]);
      var changed := false;
      if e.Some? {
        changed := DecideAndRemember(e.value);
        if changed {
          queued := queued + [e.value.key];
        }
      }
      HandlingIsAccounted(start, log, trace, n, changed);
      Note(Handled(n, changed));
    }

    /** Opens a watch, in the trace. */
    ghost method Resume(position: nat, since: nat)
      requires Valid() && Following(position, position) && RelistsOnlyWhenLost(trace, since)
      modifies this`trace
      ensures Valid() && Following(position, position) && WatchedFrom(trace) == position
      ensures RelistsOnlyWhenLost(trace, since) && Bare(trace) == WatchMarks(Bare(old(trace)), position, position)
    {
      var anchor: nat :| Follows(start, log, trace, anchor, position, position);
      ResumingFollows(start, log, trace, anchor, position);
      TraceGrows(trace, Resumed(position));
      WatchingRelistsNothing(trace, since, Resumed(position));
      Note(Resumed(position));
    }

    /** Handles event `n` of a watch from `lo`, and says which event is next. */
    method HandleNext(lo: nat, n: nat, ghost since: nat) returns (next: nat)
      requires Valid() && n < |log| && Following(lo, n) && WatchedFrom(trace) == lo && RelistsOnlyWhenLost(trace, since)
      modifies this`seen, this`queued, this`trace
      ensures Valid() && next == n + 1 && Following(lo, next) && WatchedFrom(trace) == lo
      ensures RelistsOnlyWhenLost(trace, since) && Bare(trace) == Bare(old(trace)) + [Handled(n, false)]
    {
      next := n + 1;
      ghost var anchor: nat :| Follows(start, log, trace, anchor, lo, n);
      ghost var x := Handled(n, Speaks(start, log, seen, n));
      HandlingFollows(start, log, trace, anchor, lo, n, next, x);
      TraceGrows(trace, x);
      WatchingRelistsNothing(trace, since, x);
      Handle(n);
    }

    /** The loop of `_watch_from`: a stop that has arrived by the time an event is looked at leaves it unhandled. */
    method HandleStream(position: nat, round: Round, ghost since: nat, ghost first: seq<Mark>) returns (at: nat)
      requires Valid() && !stopping && position <= |log| && Following(position, position) && WatchedFrom(trace) == position
      requires Bare(trace) == WatchMarks(first, position, position) && RelistsOnlyWhenLost(trace, since)
      modifies this`seen, this`queued, this`trace, this`stopping
      ensures Valid() && Following(position, at) && RelistsOnlyWhenLost(trace, since)
      ensures at == HandledUpTo(|log|, position, round) && stopping == CutShort(|log|, position, round)
      ensures Bare(trace) == WatchMarks(first, position, at)
    {
      at := position;
      while at < StreamEnd(|log|, position, round)
        invariant position <= at <= StreamEnd(|log|, position, round) <= |log| && !stopping
        invariant round.stop.DuringStream? ==> at <= position + round.stop.handled
        invariant Valid() && WatchedFrom(trace) == position
        invariant Following(position, at) && RelistsOnlyWhenLost(trace, since)
        invariant Bare(trace) == WatchMarks(first, position, at)
      {
        if round.stop == DuringStream(at - position) {
          stopping := true;
          return;
        }
        at := HandleNext(position, at, since);
      }
    }

    /** `_watch_from` */
    method WatchFrom(position: nat, round: Round, ghost since: nat) returns (reply: WatchReply)
      requires Valid() && !stopping && Following(position, position) && RelistsOnlyWhenLost(trace, since)
      modifies this`seen, this`queued, this`trace, this`stopping
      ensures Valid() && Sound(start, log, trace) && RelistsOnlyWhenLost(trace, since)
      ensures reply == Replied(|log|, position, round) && stopping == round.stop.DuringStream?
      ensures Bare(trace) == WatchMarks(Bare(old(trace)), position, HandledUpTo(|log|, position, round))
      ensures reply.Reached? && !stopping ==> Following(reply.position, reply.position)
      ensures reply.Broken? ==> Following(position, position)
    {
      Resume(position, since);
      var at := HandleStream(position, round, since, Bare(old(trace)));
      if stopping {
        return Reached(at + 1);
      }
      EndOfStream(position, at);
      if round.stop.DuringStream? {
        stopping := true;
      }
      match round.end {
        case Closed => return Reached(at);
        case Breaks(failure) => return Broken(failure);
      }
    }

    /** A watch may be resumed where it got to, and where it began. */
    lemma EndOfStream(position: nat, at: nat)
      requires Following(position, at)
      ensures Following(at, at) && Following(position, position)
    {
      var anchor: nat :| Follows(start, log, trace, anchor, position, at);
      StoppingFollows(start, log, trace, anchor, position, at);
    }

    /** The first half of the `try` block of `_run`: a list, when no position is held. */
    method Position(held: Option<nat>, round: Round, ghost since: nat)
      returns (position: Option<nat>)
      requires Stands(held, since) && !stopping
      requires round.list.Items? ==> round.list.position <= |log|
      modifies this
      ensures Stands(position, since) && !stopping
      ensures position == WatchedPosition(held, round) && Bare(trace) == ListMarks(Bare(old(trace)), held, round)
    {
      if held.Some? {
        return held;
      }
      match round.list {
        case Items(n) =>
          ghost var before := trace;
          ghost var x := Sync(n);
          ListingOnceOutdated(before, since, x);
          return Some(n);
        case ListFails(_) =>
          return None;
      }
    }

    /** The `try` block of `_run`: list if no position is held, then watch. */
    method ListAndWatch(held: Option<nat>, round: Round, ghost since: nat)
      returns (position: Option<nat>, failure: Option<Failure>)
      requires Stands(held, since) && !stopping
      requires round.list.Items? ==> round.list.position <= |log|
      modifies this
      ensures Stands(position, since)
      ensures position == PositionOf(|log|, held, round) && failure == FailureOf(|log|, held, round)
      ensures Bare(trace) == AttemptMarks(Bare(old(trace)), |log|, held, round)
      ensures stopping == (round.stop.DuringStream? && WatchedPosition(held, round).Some?)
    {
      position := Position(held, round, since);
      if position.None? {
        return None, Some(round.list.failure);
      }
      failure := None;
      var reply := WatchFrom(position.value, round, since);
      match reply {
        case Reached(p) => position := Some(p);
        case Broken(f) => failure := Some(f);
      }
    }

    /** The `except` clauses of `_run`: a 410 and a refused access lose the position, and the latter the readiness too. */
    method Recover(held: Option<nat>, failure: Option<Failure>, ghost since: nat)
      returns (position: Option<nat>)
      requires Stands(held, since)
      modifies this`synced, this`trace
      ensures Stands(position, since)
      ensures failure == Some(Expired) ==>
        position.None? && synced == old(synced) && Bare(trace) == Bare(old(trace)) + [Lost(false)]
      ensures failure == Some(AccessLost) ==> position.None? && !synced && Bare(trace) == Bare(old(trace)) + [Lost(true)]
      ensures failure.None? || failure == Some(Trouble) ==>
        position == held && synced == old(synced) && Bare(trace) == Bare(old(trace))
      ensures position == (if Loses(failure) then None else held) && Bare(trace) == LossMarks(Bare(old(trace)), failure)
    {
      position := held;
      if failure == Some(Expired) {
        LoseTrack(false, since);
        position := None;
      } else if failure == Some(AccessLost) {
        synced := false;
        LoseTrack(true, since);
        position := None;
      }
    }

    /** One turn of `_run`. */
    method Turn(held: Option<nat>, round: Round, ghost since: nat, ghost c: Course)
      returns (position: Option<nat>)
      requires Stands(held, since) && OnCourse(c, held) && !stopping
      requires round.list.Items? ==> round.list.position <= |log|
      modifies this
      ensures Stands(position, since) && OnCourse(Turned(|log|, c, round), position)
    {
      var failure: Option<Failure>;
      position, failure := ListAndWatch(held, round, since);
      ghost var tried := Bare(trace);
      position := Recover(position, failure, since);
      TurnedIs(|log|, c, round, tried, Bare(trace), position);
      if round.stop.Waiting? {
        stopping := true;
      }
    }

    /**
     `_run`. However the lists and watches go: the loop takes exactly the course
     its answers make, list by list and event by event, and is left holding the
     position and the stop flag of that course; no position is watched from unless
     everything since the listing in force has been handled; every event queues
     its key exactly when the filter says so over a memory that keeps track, and
     every list queues all it names, nothing else ever being queued; nothing is
     listed again while the last list's position is good; and the watcher is in
     touch while it holds a position. A stop arriving in a wait ends the loop
     whether or not there was time left to wait, as the loop's own check would.
     */
    method Run(rounds: seq<Round>) returns (position: Option<nat>)
      requires Valid() && Sound(start, log, trace)
      requires forall i | 0 <= i < |rounds| && rounds[i].list.Items? :: rounds[i].list.position <= |log|
      modifies this
      ensures Valid() && Sound(start, log, trace)
      ensures OnCourse(CourseOf(|log|, old(stopping), Bare(old(trace)), rounds, |rounds|), position)
      ensures position.Some? ==> synced
      ensures RelistsOnlyWhenLost(trace, |old(trace)|)
      ensures position.Some? && !stopping ==>
        exists anchor: nat :: NothingSkipped(start, log, trace, anchor, position.value)
    {
      position := TakeTurns(rounds, |trace|);
      if position.Some? && !stopping {
        ghost var anchor: nat :| Follows(start, log, trace, anchor, position.value, position.value);
        LessSkipsNothing(start, log, trace, anchor, HighWater(trace), position.value);
      }
    }

    /** The loop of `_run`. */
    method TakeTurns(rounds: seq<Round>, ghost since: nat)
      returns (position: Option<nat>)
      requires Valid() && Sound(start, log, trace) && since == |trace|
      requires forall i | 0 <= i < |rounds| && rounds[i].list.Items? :: rounds[i].list.position <= |log|
      modifies this
      ensures Stands(position, since)
      ensures OnCourse(CourseOf(|log|, old(stopping), Bare(old(trace)), rounds, |rounds|), position)
    {
      position := None;
      ghost var course := CourseOf(|log|, stopping, Bare(trace), rounds, 0);
      var i := 0;
      while i < |rounds| && !stopping
        invariant 0 <= i <= |rounds| && course == CourseOf(|log|, old(stopping), Bare(old(trace)), rounds, i)
        invariant Stands(position, since) && OnCourse(course, position)
      {
        position := Turn(position, rounds[i], since, course);
        course := Turned(|log|, course, rounds[i]);
        i := i + 1;
      }
      if i < |rounds| {
        StoppedCourseStays(|log|, old(stopping), Bare(old(trace)), rounds, i, |rounds|);
      }
    }

    /** Marks the end of a listing's force. */
    ghost method LoseTrack(access: bool, since: nat)
      requires seen == SeenBy(start, log, trace) && queued == QueuedBy(start, log, trace)
      requires synced == (InTouch(trace) && !access)
      requires Sound(start, log, trace) && RelistsOnlyWhenLost(trace, since)
      modifies this`trace
      ensures Valid() && Sound(start, log, trace)
      ensures trace == old(trace) + [Lost(access)] && Bare(trace) == Bare(old(trace)) + [Lost(access)]
      ensures RelistsOnlyWhenLost(trace, since) && AllOutdated(trace, since)
    {
      LosingOutdates(trace, since, Lost(access));
      SoundGrows(start, log, trace, Lost(access));
      Note(Lost(access));
    }
  }
}
