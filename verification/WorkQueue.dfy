/**
 The deduplicating, delaying, per-key-serialising work queue.

 The state is a value, `Queue`, and each method of the class is one
 lock-protected section proved to be a function on it. The heap is kept as the
 sequence a priority queue ordered by (due, sequence) would hand out; a key
 that is rescheduled leaves a stale entry behind, and only `deadlines` says
 which entries count.
 */
module WorkQueue {
  import opened Wrappers

  type Key = string

  datatype Entry = Entry(due: real, sequence: nat, key: Key)

  datatype Queue = Queue(
    queue: seq<Key>, dirty: set<Key>, processing: set<Key>,
    waiting: seq<Entry>, deadlines: map<Key, real>, sequence: nat, shut: bool)

  const EmptyQueue: Queue := Queue([], {}, {}, [], map[], 0, false)

  // -- The heap --------------------------------------------------------------------

  predicate Before(a: Entry, b: Entry) { a.due < b.due || (a.due == b.due && a.sequence < b.sequence) }

  ghost predicate Sorted(waiting: seq<Entry>) {
    forall i, j | 0 <= i < j < |waiting| :: Before(waiting[i], waiting[j])
  }

  /** `heapq.heappush`; popping takes the first entry. */
  function Push(waiting: seq<Entry>, e: Entry): seq<Entry> {
    if waiting != [] && Before(waiting[0], e) then [waiting[0]] + Push(waiting[1..], e) else [e] + waiting
  }

  // -- The lock-protected sections -----------------------------------------------------

  function AddLocked(q: Queue, key: Key): Queue {
    if q.shut || key in q.dirty then q
    else
      var q := q.(deadlines := q.deadlines - {key}, dirty := q.dirty + {key});
      if key in q.processing then q else q.(queue := q.queue + [key])
  }

  function AddedAfter(q: Queue, key: Key, now: real, delay: real): Queue {
    if delay <= 0.0 then AddLocked(q, key)
    else if q.shut then q
    else
      var due := now + delay;
      if key in q.deadlines && q.deadlines[key] <= due then q
      else q.(deadlines := q.deadlines[key := due],
              waiting := Push(q.waiting, Entry(due, q.sequence, key)),
              sequence := q.sequence + 1)
  }

  /** Takes the first heap entry, which counts only if it is the key's deadline. */
  function PromoteFirst(q: Queue): Queue
    requires q.waiting != []
  {
    var e := q.waiting[0];
    var q := q.(waiting := q.waiting[1..]);
    if e.key in q.deadlines && q.deadlines[e.key] == e.due
    then AddLocked(q.(deadlines := q.deadlines - {e.key}), e.key)
    else q
  }

  function Promote(q: Queue, now: real): Queue
    decreases |q.waiting|
  {
    if q.waiting != [] && q.waiting[0].due <= now then Promote(PromoteFirst(q), now) else q
  }

  /** One turn of `get` under the lock, at `now`: the new state, and the key handed out if any. */
  function Taken(q: Queue, now: real): (Queue, Option<Key>) {
    if q.shut then (q, None)
    else
      var q := Promote(q, now);
      if q.queue == [] then (q, None)
      else (q.(queue := q.queue[1..], dirty := q.dirty - {q.queue[0]}, processing := q.processing + {q.queue[0]}),
            Some(q.queue[0]))
  }

  function Released(q: Queue, key: Key): Queue {
    var q := q.(processing := q.processing - {key});
    if key in q.dirty then q.(queue := q.queue + [key]) else q
  }

  function Closed(q: Queue): Queue { q.(shut := true) }

  // -- What every section keeps -----------------------------------------------------------

  ghost predicate NoDuplicates(keys: seq<Key>) {
    forall i, j | 0 <= i < j < |keys| :: keys[i] != keys[j]
  }

  /** The heap is ordered, its sequence numbers are used up, and every deadline has its entry. */
  ghost predicate HeapServes(q: Queue) {
    && Sorted(q.waiting)
    && (forall i | 0 <= i < |q.waiting| :: q.waiting[i].sequence < q.sequence)
    && (forall key | key in q.deadlines :: Backed(q.waiting, key, q.deadlines[key]))
  }

  ghost predicate Backed(waiting: seq<Entry>, key: Key, due: real) {
    exists i :: 0 <= i < |waiting| && waiting[i].key == key && waiting[i].due == due
  }

  /** The queue holds, once each, exactly the keys that are dirty and in nobody's hands. */
  ghost predicate QueueIsDirtyAndFree(q: Queue) {
    && NoDuplicates(q.queue)
    && (forall key :: key in q.queue <==> key in q.dirty && key !in q.processing)
  }

  ghost predicate WellFormed(q: Queue) {
    HeapServes(q) && QueueIsDirtyAndFree(q)
  }

  lemma {:induction false} PushKeepsOrder(waiting: seq<Entry>, e: Entry)
    requires Sorted(waiting)
    requires forall i | 0 <= i < |waiting| :: waiting[i].sequence < e.sequence
    ensures var w := Push(waiting, e);
      && Sorted(w)
      && |w| == |waiting| + 1
      && (forall x :: x in w <==> x == e || x in waiting)
  {
    if waiting != [] && Before(waiting[0], e) {
      PushKeepsOrder(waiting[1..], e);
      var rest := Push(waiting[1..], e);
      forall j | 0 <= j < |rest| ensures Before(waiting[0], rest[j]) {
        assert rest[j] in rest;
        if rest[j] != e {
          var i :| 0 <= i < |waiting[1..]| && waiting[1..][i] == rest[j];
          assert waiting[i + 1] == rest[j];
        }
      }
    } else {
      if waiting != [] {
        assert Before(e, waiting[0]);
      }
      forall j | 0 <= j < |waiting| ensures Before(e, waiting[j]) {
        if j > 0 { assert Before(waiting[0], waiting[j]); }
      }
    }
  }

  lemma BackedIn(waiting: seq<Entry>, longer: seq<Entry>, key: Key, due: real)
    requires Backed(waiting, key, due)
    requires forall e :: e in waiting ==> e in longer
    ensures Backed(longer, key, due)
  {
    var i :| 0 <= i < |waiting| && waiting[i].key == key && waiting[i].due == due;
    assert waiting[i] in longer;
  }

  lemma AddKeeps(q: Queue, key: Key)
    requires WellFormed(q)
    ensures WellFormed(AddLocked(q, key))
  {
  }

  /** An immediate add supersedes a delayed one, unless the key was dirty already: then its deadline stays. */
  lemma AddSupersedesDelay(q: Queue, key: Key, k: Key)
    requires !q.shut
    ensures var r := AddLocked(q, key);
      && (k in r.dirty <==> k in q.dirty || k == key)
      && (k in r.deadlines <==> k in q.deadlines && (k != key || key in q.dirty))
      && (k in r.deadlines ==> r.deadlines[k] == q.deadlines[k])
      && r.processing == q.processing
  {
  }

  lemma AddAfterKeeps(q: Queue, key: Key, now: real, delay: real)
    requires WellFormed(q)
    ensures WellFormed(AddedAfter(q, key, now, delay))
  {
    var r := AddedAfter(q, key, now, delay);
    if delay <= 0.0 {
      AddKeeps(q, key);
    } else if r != q {
      var e := Entry(now + delay, q.sequence, key);
      PushKeepsOrder(q.waiting, e);
      forall k | k in r.deadlines ensures Backed(r.waiting, k, r.deadlines[k]) {
        if k == key {
          assert e in r.waiting;
        } else {
          BackedIn(q.waiting, r.waiting, k, q.deadlines[k]);
        }
      }
      forall i | 0 <= i < |r.waiting| ensures r.waiting[i].sequence < r.sequence {
        assert r.waiting[i] in r.waiting;
      }
    }
  }

  /** The section stores the nearer of the two deadlines. */
  lemma AddAfterTakesNearest(q: Queue, key: Key, now: real, delay: real)
    requires !q.shut && delay > 0.0
    ensures var r, due := AddedAfter(q, key, now, delay), now + delay;
      && r.deadlines == q.deadlines[key := if key in q.deadlines && q.deadlines[key] <= due then q.deadlines[key] else due]
      && r.queue == q.queue && r.dirty == q.dirty && r.processing == q.processing
  {
    if key in q.deadlines && q.deadlines[key] <= now + delay {
      assert q.deadlines[key := q.deadlines[key]] == q.deadlines;
    }
  }

  /** A delay of nothing, or less, is no delay. */
  lemma NoDelayIsAtOnce(q: Queue, key: Key, now: real, delay: real, k: Key)
    requires !q.shut && delay <= 0.0
    ensures var r := AddedAfter(q, key, now, delay);
      && (k in r.dirty <==> k in q.dirty || k == key)
      && (k in r.deadlines <==> k in q.deadlines && (k != key || key in q.dirty))
      && (k in r.deadlines ==> r.deadlines[k] == q.deadlines[k])
      && r.processing == q.processing && r.waiting == q.waiting
  {
  }

  /** The heap without its first entry, and the deadlines without the one it stood for. */
  function Popped(q: Queue): Queue
    requires q.waiting != []
  {
    var e := q.waiting[0];
    var rest := q.(waiting := q.waiting[1..]);
    if e.key in q.deadlines && q.deadlines[e.key] == e.due then rest.(deadlines := q.deadlines - {e.key}) else rest
  }

  lemma PoppingKeeps(q: Queue)
    requires WellFormed(q) && q.waiting != []
    ensures WellFormed(Popped(q))
  {
    var e, rest := q.waiting[0], q.waiting[1..];
    forall key | key in Popped(q).deadlines ensures Backed(rest, key, q.deadlines[key]) {
      var i :| 0 <= i < |q.waiting| && q.waiting[i].key == key && q.waiting[i].due == q.deadlines[key];
      assert rest[i - 1] == q.waiting[i];
    }
  }

  lemma PromoteFirstKeeps(q: Queue)
    requires WellFormed(q) && q.waiting != []
    ensures WellFormed(PromoteFirst(q))
  {
    PoppingKeeps(q);
    AddKeeps(Popped(q), q.waiting[0].key);
  }

  lemma {:induction false} PromoteKeeps(q: Queue, now: real)
    requires WellFormed(q)
    ensures WellFormed(Promote(q, now))
    decreases |q.waiting|
  {
    if q.waiting != [] && q.waiting[0].due <= now {
      PromoteFirstKeeps(q);
      PromoteKeeps(PromoteFirst(q), now);
    }
  }

  lemma GetKeeps(q: Queue, now: real)
    requires WellFormed(q)
    ensures WellFormed(Taken(q, now).0)
  {
    PromoteKeeps(q, now);
  }

  /**
   Giving back a key keeps the queue in order exactly when the key is held or is
   not dirty: a dirty key that nobody holds is queued already.
   */
  lemma DoneKeeps(q: Queue, key: Key)
    requires WellFormed(q)
    ensures WellFormed(Released(q, key)) <==> key in q.processing || key !in q.dirty
  {
    var r := Released(q, key);
    if key !in q.processing {
      assert q.processing - {key} == q.processing;
      if key in q.dirty {
        assert key in q.queue;
        var i :| 0 <= i < |q.queue| && q.queue[i] == key;
        assert r.queue[i] == r.queue[|q.queue|];
      }
    }
  }

  // -- Promotion refines a plain map of deadlines --------------------------------------------

  /** The keys whose deadline has come. */
  function DueKeys(deadlines: map<Key, real>, now: real): set<Key> {
    set key | key in deadlines && deadlines[key] <= now
  }

  /** The keys promotion appends, in the order it appends them. */
  function Appended(q: Queue, now: real): seq<Key>
    decreases |q.waiting|
  {
    if q.waiting != [] && q.waiting[0].due <= now then
      var e, rest := q.waiting[0], Appended(PromoteFirst(q), now);
      if e.key in q.deadlines && q.deadlines[e.key] == e.due && !q.shut && e.key !in q.dirty && e.key !in q.processing
      then [e.key] + rest else rest
    else []
  }

  /** A well-formed heap's first entry is no later than any deadline. */
  lemma FirstIsEarliest(q: Queue, key: Key)
    requires HeapServes(q) && key in q.deadlines
    ensures q.waiting != [] && q.waiting[0].due <= q.deadlines[key]
  {
    var i :| 0 <= i < |q.waiting| && q.waiting[i].key == key && q.waiting[i].due == q.deadlines[key];
    if i > 0 {
      assert Before(q.waiting[0], q.waiting[i]);
    }
  }

  /** The keys of `keys` come in order of their deadlines. */
  ghost predicate InDeadlineOrder(keys: seq<Key>, deadlines: map<Key, real>) {
    && (forall i | 0 <= i < |keys| :: keys[i] in deadlines)
    && (forall i, j | 0 <= i < j < |keys| :: deadlines[keys[i]] <= deadlines[keys[j]])
  }

  /** What promotion at `now` leaves of the deadlines and the dirty set, and what it appends. */
  ghost predicate PromotesExactly(q: Queue, r: Queue, appended: seq<Key>, now: real) {
    var due := DueKeys(q.deadlines, now);
    && r.deadlines == q.deadlines - due
    && r.dirty == q.dirty + due
    && r.processing == q.processing && r.shut == q.shut
    && r.queue == q.queue + appended
    && (forall key :: key in appended <==> key in due && key !in q.dirty && key !in q.processing)
    && InDeadlineOrder(appended, q.deadlines)
    && NoDuplicates(appended)
  }

  /**
   Whatever stale and equal-time entries the heap holds, promotion at `now`
   removes exactly the deadlines at or before `now`, makes exactly those keys
   dirty, and appends, once each and in deadline order, the ones that were
   neither dirty nor in hand.
   */
  lemma {:induction false} PromotionIsExact(q: Queue, now: real)
    requires WellFormed(q) && !q.shut
    ensures PromotesExactly(q, Promote(q, now), Appended(q, now), now)
    ensures forall key | key in Promote(q, now).deadlines :: Promote(q, now).deadlines[key] > now
    decreases |q.waiting|
  {
    if q.waiting != [] && q.waiting[0].due <= now {
      var e, next := q.waiting[0], PromoteFirst(q);
      PromoteFirstKeeps(q);
      PromotionIsExact(next, now);
      if e.key in q.deadlines && q.deadlines[e.key] == e.due {
        PromoteLive(q, now);
      } else {
        assert DueKeys(next.deadlines, now) == DueKeys(q.deadlines, now);
      }
    } else {
      forall key | key in q.deadlines ensures q.deadlines[key] > now {
        FirstIsEarliest(q, key);
      }
      assert q.deadlines - {} == q.deadlines;
    }
  }

  /** An earliest key goes before keys that come in deadline order. */
  lemma PrependEarliest(key: Key, keys: seq<Key>, deadlines: map<Key, real>)
    requires key in deadlines && key !in keys
    requires InDeadlineOrder(keys, deadlines - {key}) && NoDuplicates(keys)
    requires forall k | k in deadlines :: deadlines[key] <= deadlines[k]
    ensures InDeadlineOrder([key] + keys, deadlines) && NoDuplicates([key] + keys)
    ensures InDeadlineOrder(keys, deadlines)
  {
  }

  /** The keys due now are the first entry's and those due of what remains. */
  lemma LiveDueKeys(q: Queue, now: real)
    requires q.waiting != [] && q.waiting[0].due <= now
    requires var e := q.waiting[0]; e.key in q.deadlines && q.deadlines[e.key] == e.due
    ensures var e, next := q.waiting[0], PromoteFirst(q);
      && next.deadlines == q.deadlines - {e.key}
      && DueKeys(q.deadlines, now) == DueKeys(next.deadlines, now) + {e.key}
      && q.deadlines - DueKeys(q.deadlines, now) == next.deadlines - DueKeys(next.deadlines, now)
  {
  }

  /** Appending one key and then the rest. */
  lemma AppendOneThenRest(queue: seq<Key>, key: Key, rest: seq<Key>)
    ensures (queue + [key]) + rest == queue + ([key] + rest)
    ensures forall k :: k in [key] + rest <==> k == key || k in rest
  {
  }

  /** A first entry that is its key's deadline: what is appended. */
  lemma LiveAppends(q: Queue, next: Queue, r: Queue, rest: seq<Key>, now: real)
    requires !q.shut && q.waiting != [] && q.waiting[0].due <= now && next == PromoteFirst(q)
    requires var e := q.waiting[0]; e.key in q.deadlines && q.deadlines[e.key] == e.due
    requires PromotesExactly(next, r, rest, now)
    ensures var due, key := DueKeys(q.deadlines, now), q.waiting[0].key;
            var appended := if key in q.dirty || key in q.processing then rest else [key] + rest;
      && r.queue == q.queue + appended
      && (forall k :: k in appended <==> k in due && k !in q.dirty && k !in q.processing)
  {
    LiveDueKeys(q, now);
    AppendOneThenRest(q.queue, q.waiting[0].key, rest);
  }

  /** A first entry that is its key's deadline. */
  lemma PromoteLive(q: Queue, now: real)
    requires WellFormed(q) && !q.shut && q.waiting != [] && q.waiting[0].due <= now
    requires var e := q.waiting[0]; e.key in q.deadlines && q.deadlines[e.key] == e.due
    requires PromotesExactly(PromoteFirst(q), Promote(q, now), Appended(PromoteFirst(q), now), now)
    ensures PromotesExactly(q, Promote(q, now), Appended(q, now), now)
  {
    var e, rest := q.waiting[0], Appended(PromoteFirst(q), now);
    LiveDueKeys(q, now);
    LiveAppends(q, PromoteFirst(q), Promote(q, now), rest, now);
    forall key | key in q.deadlines ensures e.due <= q.deadlines[key] {
      FirstIsEarliest(q, key);
    }
    PrependEarliest(e.key, rest, q.deadlines);
  }

  /**
   Keys are handed out in the order they came up: those already queued first,
   then those that have fallen due, earliest deadline first.
   */
  lemma GetServesInOrder(q: Queue, now: real)
    requires WellFormed(q) && !q.shut
    ensures var (r, key) := Taken(q, now);
            var line := q.queue + Appended(q, now);
      if line == [] then key.None? && r.queue == []
      else key == Some(line[0]) && r.queue == line[1..]
           && r.dirty == q.dirty + DueKeys(q.deadlines, now) - {line[0]}
           && r.processing == q.processing + {line[0]}
  {
    PromotionIsExact(q, now);
  }

  // -- The queue object -----------------------------------------------------------------------

  class KeyQueue {
    var queue: seq<Key>
    var dirty: set<Key>
    var processing: set<Key>
    var waiting: seq<Entry>
    var deadlines: map<Key, real>
    var sequence: nat
    var shut: bool

    function Model(): Queue
      reads this
    {
      Queue(queue, dirty, processing, waiting, deadlines, sequence, shut)
    }

    constructor ()
      ensures Model() == EmptyQueue && WellFormed(Model())
    {
      queue, dirty, processing := [], {}, {};
      waiting, deadlines, sequence, shut := [], map[], 0, false;
    }

    /** `_add_locked` */
    method AddUnderLock(key: Key)
      modifies this
      ensures Model() == AddLocked(old(Model()), key)
    {
      if shut || key in dirty {
        return;
      }
      deadlines := deadlines - {key};
      dirty := dirty + {key};
      if key in processing {
        return;
      }
      queue := queue + [key];
    }

    method Add(key: Key)
      requires WellFormed(Model())
      modifies this
      ensures WellFormed(Model()) && Model() == AddLocked(old(Model()), key)
    {
      AddKeeps(Model(), key);
      AddUnderLock(key);
    }

    method AddAfter(key: Key, now: real, delay: real)
      requires WellFormed(Model())
      modifies this
      ensures WellFormed(Model()) && Model() == AddedAfter(old(Model()), key, now, delay)
    {
      AddAfterKeeps(Model(), key, now, delay);
      if delay <= 0.0 {
        AddUnderLock(key);
        return;
      }
      if shut {
        return;
      }
      var due := now + delay;
      if key in deadlines && deadlines[key] <= due {
        return;
      }
      deadlines := deadlines[key := due];
      waiting := Push(waiting, Entry(due, sequence, key));
      sequence := sequence + 1;
    }

    /** `_promote_due_locked` */
    method PromoteDue(now: real)
      modifies this
      ensures Model() == Promote(old(Model()), now)
    {
      while waiting != [] && waiting[0].due <= now
        invariant Promote(Model(), now) == Promote(old(Model()), now)
        decreases |waiting|
      {
        ghost var before := Model();
        var e := waiting[0];
        waiting := waiting[1..];
        if e.key in deadlines && deadlines[e.key] == e.due {
          deadlines := deadlines - {e.key};
          AddUnderLock(e.key);
        }
        assert Model() == PromoteFirst(before);
      }
    }

    /**
     One turn of `get` under the lock: promote at `now`, then hand out the first
     key, or say how long to wait given that it is `later` and the caller gives
     up at `deadline`. A waiting caller never sleeps past a live deadline.
     */
    method TryGet(now: real, later: real, deadline: real) returns (key: Option<Key>, wait: Option<real>)
      requires WellFormed(Model()) && now <= later
      modifies this
      ensures WellFormed(Model()) && (Model(), key) == Taken(old(Model()), now)
      ensures old(shut) ==> key.None?
      ensures key.Some? ==> key.value in processing && key.value !in dirty && key.value !in old(processing)
      ensures wait.Some? ==>
        && 0.0 <= wait.value <= deadline - later
        && forall k | k in deadlines :: later + wait.value <= deadlines[k] || wait.value == 0.0
      ensures wait.Some? <==> key.None? && !shut && later < deadline
    {
      GetKeeps(Model(), now);
      if shut {
        return None, None;
      }
      PromoteKeeps(Model(), now);
      PromotionIsExact(Model(), now);
      PromoteDue(now);
      if queue != [] {
        var first := queue[0];
        assert first in queue;
        queue := queue[1..];
        dirty := dirty - {first};
        processing := processing + {first};
        return Some(first), None;
      }
      if deadline - later <= 0.0 {
        return None, None;
      }
      var budget := deadline - later;
      if waiting != [] && waiting[0].due - later < budget {
        budget := waiting[0].due - later;
      }
      forall k | k in deadlines
        ensures later + budget <= deadlines[k]
      {
        FirstIsEarliest(Model(), k);
      }
      return None, Some(if budget < 0.0 then 0.0 else budget);
    }

    method Done(key: Key)
      modifies this
      ensures Model() == Released(old(Model()), key)
      ensures old(WellFormed(Model())) ==> (WellFormed(Model()) <==> key in old(processing) || key !in old(dirty))
    {
      if WellFormed(Model()) { DoneKeeps(Model(), key); }
      processing := processing - {key};
      if key in dirty {
        queue := queue + [key];
      }
    }

    method Shutdown()
      requires WellFormed(Model())
      modifies this
      ensures WellFormed(Model()) && Model() == Closed(old(Model()))
    {
      shut := true;
    }
  }
}
