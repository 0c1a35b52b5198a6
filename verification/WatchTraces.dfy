/**
 What a watcher's loop leaves behind: a trace of lists, resumed positions and
 handled events, what the filter remembered at each of them, and the keys that
 went to the queue.
 */
module WatchTraces {
  import opened Wrappers
  import opened Watcher

  datatype Mark =
    | Listed(position: nat, keys: seq<Key>)
    | Resumed(position: nat)
    | Handled(index: nat, queued: bool)
    | Lost(access: bool)

  // -- The log's events ------------------------------------------------------------------------------

  /** The key of the log's event `n`, if that deed made an event. */
  function KeyOf(start: Cluster, log: seq<Deed>, n: nat): Option<Key>
    requires n < |log|
  {
    match EventOf(ClusterAt(start, log, n), log[n])
    case None => None
    case Some(e) => Some(e.key)
  }

  /** Whether somebody made the change of event `n`. */
  predicate IsLoud(start: Cluster, log: seq<Deed>, n: nat)
    requires n < |log|
  {
    Loud(ClusterAt(start, log, n), log[n])
  }

  /** Whether event `n` queues its key, over what the filter remembers. */
  predicate Speaks(start: Cluster, log: seq<Deed>, seen: map<Key, Seen>, n: nat)
    requires n < |log|
  {
    var e := EventOf(ClusterAt(start, log, n), log[n]);
    e.Some? && SpecChanged(seen, e.value)
  }

  /** What the filter remembers after event `n`. */
  function AfterEvent(start: Cluster, log: seq<Deed>, seen: map<Key, Seen>, n: nat): map<Key, Seen>
    requires n < |log|
  {
    match EventOf(ClusterAt(start, log, n), log[n])
    case None => seen
    case Some(e) => Remembered(seen, e)
  }

  // -- What a trace amounts to ----------------------------------------------------------------------------

  /** Whether the last list succeeded and access has not been refused since. */
  predicate InTouch(trace: seq<Mark>) {
    if trace == [] then false
    else match trace[|trace| - 1]
      case Listed(_, _) => true
      case Lost(true) => false
      case _ => InTouch(trace[..|trace| - 1])
  }

  /** The first log index not yet handled since the last list. */
  function HighWater(trace: seq<Mark>): nat {
    if trace == [] then 0
    else
      var before := HighWater(trace[..|trace| - 1]);
      match trace[|trace| - 1]
      case Listed(n, _) => n
      case Handled(i, _) => Max(before, i + 1)
      case _ => before
  }

  function Max(a: nat, b: nat): nat { if a < b then b else a }

  /** The position of the watch in progress. */
  function WatchedFrom(trace: seq<Mark>): nat {
    if trace == [] then 0
    else match trace[|trace| - 1]
      case Resumed(n) => n
      case _ => WatchedFrom(trace[..|trace| - 1])
  }

  /** What the filter remembers after a mark. */
  function SeenAfter(start: Cluster, log: seq<Deed>, seen: map<Key, Seen>, x: Mark): map<Key, Seen> {
    match x
    case Listed(n, _) => if n <= |log| then SeenOf(ClusterAt(start, log, n)) else seen
    case Handled(i, _) => if i < |log| then AfterEvent(start, log, seen, i) else seen
    case _ => seen
  }

  /** The keys a mark handed to the queue. */
  function HandedBy(start: Cluster, log: seq<Deed>, x: Mark): seq<Key> {
    match x
    case Listed(_, keys) => keys
    case Handled(i, queued) =>
      if queued && i < |log| && KeyOf(start, log, i).Some? then [KeyOf(start, log, i).value] else []
    case _ => []
  }

  function SeenBy(start: Cluster, log: seq<Deed>, trace: seq<Mark>): map<Key, Seen> {
    if trace == [] then map[]
    else SeenAfter(start, log, SeenBy(start, log, trace[..|trace| - 1]), trace[|trace| - 1])
  }

  /** The keys handed to the queue, first to last. */
  function QueuedBy(start: Cluster, log: seq<Deed>, trace: seq<Mark>): seq<Key> {
    if trace == [] then []
    else QueuedBy(start, log, trace[..|trace| - 1]) + HandedBy(start, log, trace[|trace| - 1])
  }

  /** One more mark. */
  lemma TraceGrows(trace: seq<Mark>, x: Mark)
    ensures HighWater(trace + [x]) == (
              if x.Listed? then x.position else if x.Handled? then Max(HighWater(trace), x.index + 1) else HighWater(trace))
    ensures WatchedFrom(trace + [x]) == if x.Resumed? then x.position else WatchedFrom(trace)
    ensures InTouch(trace + [x]) == (x.Listed? || (InTouch(trace) && !(x.Lost? && x.access)))
  {
    assert (trace + [x])[..|trace|] == trace;
  }

  lemma AccountGrows(start: Cluster, log: seq<Deed>, trace: seq<Mark>, x: Mark)
    ensures SeenBy(start, log, trace + [x]) == SeenAfter(start, log, SeenBy(start, log, trace), x)
    ensures QueuedBy(start, log, trace + [x]) == QueuedBy(start, log, trace) + HandedBy(start, log, x)
  {
    assert (trace + [x])[..|trace|] == trace;
  }

  /** Whatever a mark handed to the queue is among the keys queued. */
  lemma {:induction false} QueuedStays(start: Cluster, log: seq<Deed>, trace: seq<Mark>, m: nat, key: Key)
    requires m < |trace| && key in HandedBy(start, log, trace[m])
    ensures key in QueuedBy(start, log, trace)
  {
    var n := |trace| - 1;
    if m < n {
      assert trace[..n][m] == trace[m];
      QueuedStays(start, log, trace[..n], m, key);
    }
  }

  // -- Nothing is skipped --------------------------------------------------------------------------------

  /** The listing at `anchor` is in force: no other list, 410 or refusal has come since. */
  ghost predicate InForce(trace: seq<Mark>, anchor: nat) {
    && anchor < |trace| && trace[anchor].Listed?
    && forall m | anchor < m < |trace| :: trace[m].Resumed? || trace[m].Handled?
  }

  /** Event `e` has been handed to the filter since `anchor`, and queued its key if somebody made the change. */
  ghost predicate HandedOver(start: Cluster, log: seq<Deed>, trace: seq<Mark>, anchor: nat, e: nat)
    requires e < |log|
  {
    exists m :: anchor < m < |trace| && trace[m].Handled? && trace[m].index == e && (IsLoud(start, log, e) ==> trace[m].queued)
  }

  /** Nothing between the listing in force and `position` has been skipped. */
  ghost predicate NothingSkipped(start: Cluster, log: seq<Deed>, trace: seq<Mark>, anchor: nat, position: nat) {
    && InForce(trace, anchor)
    && trace[anchor].position <= position <= |log|
    && forall e | trace[anchor].position <= e < position :: HandedOver(start, log, trace, anchor, e)
  }

  /** A list names every publication there was, once each. */
  ghost predicate Enumerates(keys: seq<Key>, c: Cluster) {
    && (forall key :: key in keys <==> key in c)
    && (forall i, j | 0 <= i < j < |keys| :: keys[i] != keys[j])
  }

  // -- Lists are made only when they have to be ------------------------------------------------------------------

  /** A position was lost somewhere between these marks. */
  ghost predicate LostBetween(trace: seq<Mark>, i: nat, j: nat)
    requires j <= |trace|
  {
    exists k :: i < k < j && trace[k].Lost?
  }

  /** Mark `i` is a list whose position is still good at mark `j`. */
  ghost predicate StillGood(trace: seq<Mark>, i: nat, j: nat)
    requires i < j <= |trace|
  {
    trace[i].Listed? && !LostBetween(trace, i, j)
  }

  /** Every list made from mark `since` on is out of force: its position has been lost. */
  ghost predicate AllOutdated(trace: seq<Mark>, since: nat) {
    forall i: nat | since <= i < |trace| :: !StillGood(trace, i, |trace|)
  }

  /** From mark `since` on, no list is made while an earlier one's position is still good. */
  ghost predicate RelistsOnlyWhenLost(trace: seq<Mark>, since: nat) {
    forall i: nat, j: nat | since <= i < j < |trace| && StillGood(trace, i, j) :: !trace[j].Listed?
  }

  lemma LostStays(before: seq<Mark>, after: seq<Mark>, i: nat, j: nat)
    requires before <= after && j <= |before| && LostBetween(before, i, j)
    ensures LostBetween(after, i, j)
  {
    var k :| i < k < j && before[k].Lost?;
    assert after[k].Lost?;
  }

  /** A list whose position is good stays what it was. */
  lemma GoodBefore(before: seq<Mark>, after: seq<Mark>, i: nat, j: nat)
    requires before <= after && i < j <= |before| && StillGood(after, i, j)
    ensures StillGood(before, i, j)
  {
    assert before[i] == after[i];
    if LostBetween(before, i, j) { LostStays(before, after, i, j); }
  }

  lemma WatchingRelistsNothing(trace: seq<Mark>, since: nat, x: Mark)
    requires RelistsOnlyWhenLost(trace, since) && !x.Listed?
    ensures RelistsOnlyWhenLost(trace + [x], since)
  {
    var longer := trace + [x];
    forall i: nat, j: nat | since <= i < j < |longer| && StillGood(longer, i, j) ensures !longer[j].Listed? {
      if j < |trace| { GoodBefore(trace, longer, i, j); }
    }
  }

  lemma ListingOnceOutdated(trace: seq<Mark>, since: nat, x: Mark)
    requires RelistsOnlyWhenLost(trace, since) && AllOutdated(trace, since) && x.Listed?
    ensures RelistsOnlyWhenLost(trace + [x], since)
  {
    var longer := trace + [x];
    forall i: nat, j: nat | since <= i < j < |longer| && StillGood(longer, i, j) ensures !longer[j].Listed? {
      GoodBefore(trace, longer, i, j);
    }
  }

  lemma LosingOutdates(trace: seq<Mark>, since: nat, x: Mark)
    requires RelistsOnlyWhenLost(trace, since) && x.Lost?
    ensures RelistsOnlyWhenLost(trace + [x], since) && AllOutdated(trace + [x], since)
  {
    var longer := trace + [x];
    WatchingRelistsNothing(trace, since, x);
    forall i: nat | since <= i < |longer| ensures !StillGood(longer, i, |longer|) {
      if i < |trace| { assert longer[|trace|].Lost?; }
    }
  }
}
