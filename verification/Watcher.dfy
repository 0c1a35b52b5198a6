/**
 The publications watcher: a list/watch/resume loop that must not skip an event,
 and a filter that must not queue the operator's own status writes, nor hide
 anybody else's change.

 The apiserver is a log of what was done to the publications. A list returns
 the store as it stood at some point of the log; a watch from a position yields
 the log's next events, in order, until it ends.
 */
module Watcher {
  import opened Wrappers
  import Status

  type Key = string

  /** What the filter reads of a publication: its generation, and its status's `lastSigningTime`. */
  datatype Publication = Publication(generation: int, stamp: Option<int>)

  type Cluster = map<Key, Publication>

  /** What can be done to a publication. A `StatusPatch` is anybody's; `IsOwn` tells this operator's. */
  datatype Deed =
    | StatusPatch(key: Key, patch: Status.Patch)
    | SpecEdit(key: Key)
    | Creation(key: Key, publication: Publication)
    | Deletion(key: Key)
    | Bookmark

  /** What a watcher remembers of a publication. */
  datatype Seen = Seen(generation: Option<int>, signing: bool)

  /** A watch event that carries a publication. */
  datatype Event = Event(deleted: bool, key: Key, current: Seen)

  // -- The store and its events -------------------------------------------------------------

  function SeenState(p: Publication): Seen { Seen(Some(p.generation), p.stamp.Some?) }

  /** The publication a deed leaves, if it changes one. A status write leaves the generation alone. */
  function Put(c: Cluster, d: Deed): Option<Publication> {
    match d
    case StatusPatch(key, patch) =>
      if key in c then Some(c[key].(stamp := Status.Apply(c[key].stamp, patch.lastSigningTime))) else None
    case SpecEdit(key) => if key in c then Some(c[key].(generation := c[key].generation + 1)) else None
    case Creation(key, p) => if key in c then None else Some(p)
    case _ => None
  }

  function Done(c: Cluster, d: Deed): Cluster {
    if d.Bookmark? then c
    else if d.Deletion? then c - {d.key}
    else if Put(c, d).Some? then c[d.key := Put(c, d).value]
    else c
  }

  function ClusterAt(start: Cluster, log: seq<Deed>, n: nat): Cluster
    requires n <= |log|
  {
    if n == 0 then start else Done(ClusterAt(start, log, n - 1), log[n - 1])
  }

  /** The event a deed makes, if it changes anything. */
  function EventOf(c: Cluster, d: Deed): Option<Event> {
    if d.Deletion? then if d.key in c then Some(Event(true, d.key, SeenState(c[d.key]))) else None
    else if Put(c, d).Some? then Some(Event(false, d.key, SeenState(Put(c, d).value)))
    else None
  }

  /** A change somebody made: an edit, a creation, a deletion, or taking away a signing stamp that is there. */
  predicate Loud(c: Cluster, d: Deed) {
    match d
    case StatusPatch(key, patch) => key in c && c[key].stamp.Some? && patch.lastSigningTime.Null?
    case SpecEdit(key) => key in c
    case Creation(key, _) => key !in c
    case Deletion(key) => key in c
    case Bookmark => false
  }

  /** A patch some `set_status` call sends, whatever status it was computed from. */
  ghost predicate IsOwn(patch: Status.Patch) {
    exists memory, generation, w, at :: patch == Status.PatchOf(memory, generation, w, at)
  }

  // -- The filter --------------------------------------------------------------------------------

  /** Whether an event queues its key, given what was last seen: `_spec_changed`. */
  predicate SpecChanged(seen: map<Key, Seen>, e: Event) {
    || e.deleted
    || e.key !in seen
    || e.current.generation.None?
    || e.current.generation != seen[e.key].generation
    || (seen[e.key].signing && !e.current.signing)
  }

  function Remembered(seen: map<Key, Seen>, e: Event): map<Key, Seen> {
    if e.deleted then seen - {e.key} else seen[e.key := e.current]
  }

  /** What a watcher that has missed nothing remembers. */
  function SeenOf(c: Cluster): map<Key, Seen> {
    map key | key in c :: SeenState(c[key])
  }

  lemma SeenFollows(c: Cluster, d: Deed)
    ensures SeenOf(Done(c, d)) == match EventOf(c, d) case None => SeenOf(c) case Some(e) => Remembered(SeenOf(c), e)
  {
  }

  /** The operator sets `lastSigningTime` but never clears it. */
  lemma OwnPatchesKeepTheStamp(patch: Status.Patch, c: Cluster, key: Key)
    requires IsOwn(patch)
    ensures !Loud(c, StatusPatch(key, patch))
  {
  }

  /** For a watcher that remembers the store, the filter lets through exactly the changes somebody made. */
  lemma FilterIsExact(c: Cluster, d: Deed)
    ensures (EventOf(c, d).Some? && SpecChanged(SeenOf(c), EventOf(c, d).value)) <==> Loud(c, d)
  {
  }

  /** What a seeded watcher queues over a whole history, in order. */
  function QueuedOver(seen: map<Key, Seen>, c: Cluster, log: seq<Deed>): seq<Key>
    decreases |log|
  {
    if log == [] then []
    else
      var rest := Done(c, log[0]);
      match EventOf(c, log[0])
      case None => QueuedOver(seen, rest, log[1..])
      case Some(e) =>
        (if SpecChanged(seen, e) then [e.key] else []) + QueuedOver(Remembered(seen, e), rest, log[1..])
  }

  /** The keys of a history's loud deeds, in order. */
  function LoudOver(c: Cluster, log: seq<Deed>): seq<Key>
    decreases |log|
  {
    if log == [] then []
    else (if Loud(c, log[0]) then [log[0].key] else []) + LoudOver(Done(c, log[0]), log[1..])
  }

  /**
   Over any history delivered once and in order, a seeded watcher queues a key
   once for each edit, deletion, re-creation or removal of the signing stamp, and
   for nothing else. What it makes of events delivered again is in `WatchReplays`.
   */
  lemma {:induction false} HistoryIsHeardExactly(c: Cluster, log: seq<Deed>)
    ensures QueuedOver(SeenOf(c), c, log) == LoudOver(c, log)
    decreases |log|
  {
    if log != [] {
      FilterIsExact(c, log[0]);
      SeenFollows(c, log[0]);
      HistoryIsHeardExactly(Done(c, log[0]), log[1..]);
    }
  }

  /** A history of the operator's own writes alone, delivered once and in order, queues nothing. */
  lemma {:induction false} OwnWritesAreSilent(c: Cluster, log: seq<Deed>)
    requires forall d | d in log :: d.StatusPatch? && IsOwn(d.patch)
    ensures QueuedOver(SeenOf(c), c, log) == []
    decreases |log|
  {
    HistoryIsHeardExactly(c, log);
    if log != [] {
      OwnPatchesKeepTheStamp(log[0].patch, c, log[0].key);
      OwnWritesAreSilent(Done(c, log[0]), log[1..]);
      HistoryIsHeardExactly(Done(c, log[0]), log[1..]);
    }
  }
}
