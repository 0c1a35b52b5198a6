/**
 The watcher and the workers together: a change that somebody makes is looked at
 by a pass that reads the publication after it.

 The workers' run is any interleaving in which the calls that the watcher's
 trace makes come one after the other, each as an action of its own, whatever
 else happens before, in between and after.
 */
module Operator {
  import opened Wrappers
  import opened WorkQueue
  import Watcher
  import T = WatchTraces
  import L = WatchLoop
  import W = Workers

  // -- The watcher's calls ----------------------------------------------------------------------

  /** A call the watcher makes on the queue, and how many of the log's deeds it has heard of by then. */
  datatype Call = OnKey(key: Key, heard: nat) | OnSyncKey(key: Key, heard: nat)

  function CallsOf(start: Watcher.Cluster, log: seq<Watcher.Deed>, x: T.Mark): seq<Call> {
    match x
    case Listed(n, keys) => seq(|keys|, i requires 0 <= i < |keys| => OnSyncKey(keys[i], n))
    case Handled(i, queued) =>
      if queued && i < |log| && T.KeyOf(start, log, i).Some?
      then [OnKey(T.KeyOf(start, log, i).value, i + 1)] else []
    case _ => []
  }

  /** The calls a trace makes, first to last. */
  function CallsBy(start: Watcher.Cluster, log: seq<Watcher.Deed>, trace: seq<T.Mark>): seq<Call> {
    if trace == [] then []
    else CallsBy(start, log, trace[..|trace| - 1]) + CallsOf(start, log, trace[|trace| - 1])
  }

  function KeysOf(calls: seq<Call>): seq<Key> {
    seq(|calls|, i requires 0 <= i < |calls| => calls[i].key)
  }

  /** They carry exactly the keys the watcher's loop queues. */
  lemma {:induction false} CallsQueueTheKeys(start: Watcher.Cluster, log: seq<Watcher.Deed>, trace: seq<T.Mark>)
    ensures KeysOf(CallsBy(start, log, trace)) == T.QueuedBy(start, log, trace)
  {
    if trace != [] {
      var before, x := trace[..|trace| - 1], trace[|trace| - 1];
      CallsQueueTheKeys(start, log, before);
      assert KeysOf(CallsOf(start, log, x)) == T.HandedBy(start, log, x);
      KeysInOrder(CallsBy(start, log, before), CallsOf(start, log, x));
    }
  }

  lemma KeysInOrder(a: seq<Call>, b: seq<Call>)
    ensures KeysOf(a + b) == KeysOf(a) + KeysOf(b)
  {
  }

  lemma CallsGrow(start: Watcher.Cluster, log: seq<Watcher.Deed>, trace: seq<T.Mark>, n: nat)
    requires |trace| == n + 1
    ensures CallsBy(start, log, trace) == CallsBy(start, log, trace[..n]) + CallsOf(start, log, trace[n])
  {
  }

  lemma {:induction false} CallsStay(start: Watcher.Cluster, log: seq<Watcher.Deed>, trace: seq<T.Mark>, k: nat)
    requires k <= |trace|
    ensures CallsBy(start, log, trace[..k]) <= CallsBy(start, log, trace)
  {
    if k < |trace| {
      var n := |trace| - 1;
      CallsGrow(start, log, trace, n);
      assert trace[..n][..k] == trace[..k];
      CallsStay(start, log, trace[..n], k);
    } else {
      assert trace[..k] == trace;
    }
  }

  /** Call `i` of mark `m` is the one with this number: it comes right after those of the marks before. */
  lemma CallOfMark(start: Watcher.Cluster, log: seq<Watcher.Deed>, trace: seq<T.Mark>, m: nat, i: nat, c: nat)
    requires m < |trace| && i < |CallsOf(start, log, trace[m])| && c == |CallsBy(start, log, trace[..m])| + i
    ensures c < |CallsBy(start, log, trace)| && CallsBy(start, log, trace)[c] == CallsOf(start, log, trace[m])[i]
  {
    var upTo := m + 1;
    assert trace[..upTo][..m] == trace[..m];
    CallsGrow(start, log, trace[..upTo], m);
    CallsStay(start, log, trace, upTo);
    assert CallsBy(start, log, trace[..upTo])[c] == CallsOf(start, log, trace[m])[i];
  }

  /** `on_key` adds the key at once; `on_sync_key` adds it somewhere in the startup window. */
  predicate Makes(a: W.Action, c: Call) {
    match c
    case OnKey(key, _) => a == W.Announce(key)
    case OnSyncKey(key, _) => a.ListKey? && a.key == key
  }

  /** How many of the log's deeds have been done by each action. */
  ghost predicate IsClock(deeds: seq<nat>, actions: seq<W.Action>) {
    |deeds| == |actions| && forall p, r | 0 <= p <= r < |deeds| :: deeds[p] <= deeds[r]
  }

  /** Each call is an action of its own, in order, and none comes before what it has heard of was done. */
  ghost predicate Delivered(calls: seq<Call>, actions: seq<W.Action>, deeds: seq<nat>, at: seq<nat>)
    requires IsClock(deeds, actions)
  {
    && |at| == |calls|
    && (forall c | 0 <= c < |at| :: at[c] < |actions| && Makes(actions[at[c]], calls[c]) && calls[c].heard <= deeds[at[c]])
    && (forall c, d | 0 <= c < d < |at| :: at[c] < at[d])
  }

  // -- Until the key is read ----------------------------------------------------------------------

  /** A worker has the key in its hands and is still to read its publication. */
  ghost predicate ReadToCome(workers: W.Hands, key: Key) {
    exists w :: W.Holds(workers, w, key) && (workers[w].stage.Fetched? || workers[w].stage.Reading?)
  }

  /** Action `r` is a worker reading the publication of the key in its hands. */
  predicate ReadsAt(s: W.System, actions: seq<W.Action>, r: nat, key: Key)
    requires r < |actions|
  {
    var t := W.Run(s, actions[..r]);
    actions[r].Read? && W.Holds(t.workers, actions[r].w, key) && t.workers[actions[r].w].stage.Reading?
  }

  /** The publication was read at some action from `lo` up to `hi`, at which at least `heard` deeds had been done. */
  ghost predicate ReadSince(s: W.System, actions: seq<W.Action>, deeds: seq<nat>, lo: nat, hi: nat, key: Key, heard: nat)
    requires |deeds| == |actions| && hi <= |actions|
  {
    exists r: nat :: lo <= r < hi && ReadsAt(s, actions, r, key) && heard <= deeds[r]
  }

  /** A key that is coming up by `bound` goes on coming up, or is in the hands of a worker that will read, or just has. */
  lemma ComingUpStep(s: W.System, a: W.Action, key: Key, bound: real)
    requires W.Exclusive(s) && (W.Covered(s.q, key, bound) || ReadToCome(s.workers, key))
    ensures var t := W.Step(s, a);
      || t.q.shut || W.Covered(t.q, key, bound) || ReadToCome(t.workers, key)
      || (a.Read? && W.Holds(s.workers, a.w, key) && s.workers[a.w].stage.Reading?)
  {
    if s.q.shut {
      W.ShutStep(s, a);
    } else if W.Covered(s.q, key, bound) {
      CoveredStep(s, a, key, bound);
    } else {
      InHandStep(s, a, key);
    }
  }

  lemma CoveredStep(s: W.System, a: W.Action, key: Key, bound: real)
    requires W.Exclusive(s) && W.Covered(s.q, key, bound)
    ensures var t := W.Step(s, a); t.q.shut || W.Covered(t.q, key, bound) || ReadToCome(t.workers, key)
  {
    if W.IsNext(s, a) {
      match a {
        case Announce(k) => W.AddNowEffect(s.q, k);
        case ListKey(k, spread) => W.AddEffect(s.q, k, s.now, spread);
        case Take(w) => HandingOutStep(s, w, key, bound);
        case Requeue(w) => W.AddEffect(s.q, s.workers[w].key, s.now, s.workers[w].stage.delay);
        case _ =>
      }
    }
  }

  lemma HandingOutStep(s: W.System, w: W.WorkerId, key: Key, bound: real)
    requires W.Exclusive(s) && W.Covered(s.q, key, bound) && w in s.workers && s.workers[w].Free?
    ensures var t := W.TakeKey(s, w); W.Covered(t.q, key, bound) || ReadToCome(t.workers, key)
  {
    W.TakenEffect(s.q, s.now);
    var t := W.TakeKey(s, w);
    if Taken(s.q, s.now).1 == Some(key) {
      assert W.Holds(t.workers, w, key);
    }
  }

  lemma StillInHand(before: W.Hands, after: W.Hands, w: W.WorkerId, key: Key)
    requires W.Holds(before, w, key) && (before[w].stage.Fetched? || before[w].stage.Reading?)
    requires w in after && (after[w] == before[w] || after[w] == W.Busy(key, W.Reading))
    ensures ReadToCome(after, key)
  {
    assert W.Holds(after, w, key);
  }

  lemma InHandStep(s: W.System, a: W.Action, key: Key)
    requires ReadToCome(s.workers, key)
    ensures || ReadToCome(W.Step(s, a).workers, key)
            || (a.Read? && W.Holds(s.workers, a.w, key) && s.workers[a.w].stage.Reading?)
  {
    var w :| W.Holds(s.workers, w, key) && (s.workers[w].stage.Fetched? || s.workers[w].stage.Reading?);
    if !(a.Read? && a.w == w) {
      OthersLeaveTheReader(s, a, w);
      StillInHand(s.workers, W.Step(s, a).workers, w, key);
    } else if !W.IsNext(s, a) {
      StillInHand(s.workers, s.workers, w, key);
    }
  }

  lemma OthersLeaveTheReader(s: W.System, a: W.Action, w: W.WorkerId)
    requires W.At(s, w) && (s.workers[w].stage.Fetched? || s.workers[w].stage.Reading?) && !(a.Read? && a.w == w)
    ensures var t := W.Step(s, a);
      w in t.workers && (t.workers[w] == s.workers[w] || t.workers[w] == W.Busy(s.workers[w].key, W.Reading))
  {
    if W.ActorOf(a) != Some(w) { W.OthersLeaveItAlone(s, a, w); }
  }

  /**
   A key that is coming up by `bound` after action `p` goes on doing so until the
   shutdown, or until it is in the hands of a worker that is still to read its
   publication, or its publication has been read since.
   */
  lemma {:induction false} ComesUpUntilRead(
    s: W.System, actions: seq<W.Action>, deeds: seq<nat>, p: nat, after: nat, q: nat, key: Key, bound: real)
    requires W.Initial(s) && IsClock(deeds, actions) && after == p + 1 && after <= q <= |actions|
    requires var t := W.Run(s, actions[..after]); t.q.shut || W.Covered(t.q, key, bound)
    ensures var t := W.Run(s, actions[..q]);
      || t.q.shut || W.Covered(t.q, key, bound) || ReadToCome(t.workers, key)
      || ReadSince(s, actions, deeds, after, q, key, deeds[p])
    decreases q
  {
    if after < q {
      var r := q - 1;
      var before := W.Run(s, actions[..r]);
      assert actions[..q][..r] == actions[..r] && W.Run(s, actions[..q]) == W.Step(before, actions[r]);
      ComesUpUntilRead(s, actions, deeds, p, after, r, key, bound);
      if ReadSince(s, actions, deeds, after, r, key, deeds[p]) {
        assert ReadSince(s, actions, deeds, after, q, key, deeds[p]);
      } else if before.q.shut {
        W.ShutStep(before, actions[r]);
      } else {
        W.RunsAreOrderly(s, actions[..r]);
        ComingUpStep(before, actions[r], key, bound);
        assert ReadsAt(s, actions, r, key) ==> ReadSince(s, actions, deeds, after, q, key, deeds[p]);
      }
    }
  }

  lemma AddingCovers(s: W.System, a: W.Action, key: Key, bound: real)
    requires W.Exclusive(s)
    requires a == W.Announce(key) || (a.ListKey? && a.key == key && s.now + a.spread <= bound)
    ensures var t := W.Step(s, a); t.q.shut || W.Covered(t.q, key, bound)
  {
    if a.Announce? {
      W.AddNowEffect(s.q, key);
    } else {
      W.AddEffect(s.q, key, s.now, a.spread);
    }
  }

  /** What becomes of a key added at `p`. */
  lemma AddedComesUp(
    s: W.System, actions: seq<W.Action>, deeds: seq<nat>, p: nat, after: nat, q: nat, key: Key, bound: real)
    requires W.Initial(s) && IsClock(deeds, actions) && after == p + 1 && after <= q <= |actions|
    requires || actions[p] == W.Announce(key)
             || (actions[p].ListKey? && actions[p].key == key && W.Run(s, actions[..p]).now + actions[p].spread <= bound)
    ensures var t := W.Run(s, actions[..q]);
      || t.q.shut || W.Covered(t.q, key, bound) || ReadToCome(t.workers, key)
      || ReadSince(s, actions, deeds, after, q, key, deeds[p])
  {
    W.RunsAreOrderly(s, actions[..p]);
    AddingCovers(W.Run(s, actions[..p]), actions[p], key, bound);
    assert actions[..after][..p] == actions[..p];
    ComesUpUntilRead(s, actions, deeds, p, after, q, key, bound);
  }

  /** Until it is read, a key that was announced is dirty: it waits for a free worker and for nothing else. */
  lemma AnnouncedComesUpAtOnce(
    s: W.System, actions: seq<W.Action>, deeds: seq<nat>, p: nat, after: nat, q: nat, key: Key)
    requires W.Initial(s) && IsClock(deeds, actions) && after == p + 1 && after <= q <= |actions|
    requires actions[p] == W.Announce(key)
    ensures var t := W.Run(s, actions[..q]);
      t.q.shut || key in t.q.dirty || ReadToCome(t.workers, key) || ReadSince(s, actions, deeds, after, q, key, deeds[p])
  {
    var t := W.Run(s, actions[..q]);
    var bound := if key in t.q.deadlines then t.q.deadlines[key] - 1.0 else 0.0;
    AddedComesUp(s, actions, deeds, p, after, q, key, bound);
  }

  /** The key of a change made by the time it is announced. */
  lemma ChangeComesUp(
    s: W.System, actions: seq<W.Action>, deeds: seq<nat>, p: nat, after: nat, q: nat, key: Key, heard: nat)
    requires W.Initial(s) && IsClock(deeds, actions) && after == p + 1 && after <= q <= |actions|
    requires actions[p] == W.Announce(key) && heard <= deeds[p]
    ensures var t := W.Run(s, actions[..q]);
      t.q.shut || key in t.q.dirty || ReadToCome(t.workers, key) || ReadSince(s, actions, deeds, after, q, key, heard)
  {
    AnnouncedComesUpAtOnce(s, actions, deeds, p, after, q, key);
  }

  /** The key of a publication listed by the time it is added. */
  lemma ListingComesUp(
    s: W.System, actions: seq<W.Action>, deeds: seq<nat>, p: nat, after: nat, q: nat, key: Key, heard: nat, bound: real)
    requires W.Initial(s) && IsClock(deeds, actions) && after == p + 1 && after <= q <= |actions|
    requires actions[p].ListKey? && actions[p].key == key && heard <= deeds[p]
    requires bound == W.Run(s, actions[..p]).now + actions[p].spread
    ensures var t := W.Run(s, actions[..q]);
      || t.q.shut || W.Covered(t.q, key, bound) || ReadToCome(t.workers, key)
      || ReadSince(s, actions, deeds, after, q, key, heard)
  {
    AddedComesUp(s, actions, deeds, p, after, q, key, bound);
  }

  /** A delivered `on_key`. */
  lemma KeyCallIsLookedAt(
    s: W.System, actions: seq<W.Action>, deeds: seq<nat>, at: seq<nat>, calls: seq<Call>, c: nat, key: Key, heard: nat)
    returns (p: nat, after: nat)
    requires W.Initial(s) && IsClock(deeds, actions) && Delivered(calls, actions, deeds, at)
    requires c < |calls| && calls[c] == OnKey(key, heard)
    ensures p == at[c] && p < |actions| && actions[p] == W.Announce(key) && heard <= deeds[p] && after == p + 1
    ensures forall q: nat | p < q <= |actions| ::
              var t := W.Run(s, actions[..q]);
              || t.q.shut || key in t.q.dirty || ReadToCome(t.workers, key)
              || ReadSince(s, actions, deeds, after, q, key, heard)
  {
    p := at[c];
    after := p + 1;
    assert Makes(actions[at[c]], calls[c]);
    forall q: nat | p < q <= |actions|
      ensures var t := W.Run(s, actions[..q]);
        t.q.shut || key in t.q.dirty || ReadToCome(t.workers, key) || ReadSince(s, actions, deeds, after, q, key, heard)
    {
      ChangeComesUp(s, actions, deeds, p, after, q, key, heard);
    }
  }

  /** A delivered `on_sync_key`. */
  lemma SyncCallIsLookedAt(
    s: W.System, actions: seq<W.Action>, deeds: seq<nat>, at: seq<nat>, calls: seq<Call>, c: nat, key: Key, heard: nat)
    returns (p: nat, after: nat, bound: real)
    requires W.Initial(s) && IsClock(deeds, actions) && Delivered(calls, actions, deeds, at)
    requires c < |calls| && calls[c] == OnSyncKey(key, heard)
    ensures p == at[c] && p < |actions| && actions[p].ListKey? && actions[p].key == key
    ensures heard <= deeds[p] && after == p + 1
    ensures bound == W.Run(s, actions[..p]).now + actions[p].spread
    ensures forall q: nat | p < q <= |actions| ::
              var t := W.Run(s, actions[..q]);
              || t.q.shut || W.Covered(t.q, key, bound) || ReadToCome(t.workers, key)
              || ReadSince(s, actions, deeds, after, q, key, heard)
  {
    p := at[c];
    after := p + 1;
    assert Makes(actions[at[c]], calls[c]);
    bound := W.Run(s, actions[..p]).now + actions[p].spread;
    forall q: nat | p < q <= |actions|
      ensures var t := W.Run(s, actions[..q]);
        || t.q.shut || W.Covered(t.q, key, bound) || ReadToCome(t.workers, key)
        || ReadSince(s, actions, deeds, after, q, key, heard)
    {
      ListingComesUp(s, actions, deeds, p, after, q, key, heard, bound);
    }
  }

  // -- Until a read is answered -------------------------------------------------------------------

  /** A worker has the key in its hands and has not had an answer about it, or has one and is to put the key back. */
  predicate Owing(worker: W.Worker) {
    worker.Busy? && (worker.stage.Fetched? || worker.stage.Reading? || worker.stage.Retrying?)
  }

  /** The key will be read, now or when its delay is over. */
  ghost predicate Owed(s: W.System, key: Key) {
    W.Queued(s.q, key) || exists w :: W.Holds(s.workers, w, key) && Owing(s.workers[w])
  }

  /** A read at some action from `lo` up to `hi` had an answer: the publication, or that there is none. */
  ghost predicate AnsweredSince(s: W.System, actions: seq<W.Action>, deeds: seq<nat>, lo: nat, hi: nat, key: Key, heard: nat)
    requires |deeds| == |actions| && hi <= |actions|
  {
    exists r: nat :: lo <= r < hi && ReadsAt(s, actions, r, key) && !actions[r].reply.Unreadable? && heard <= deeds[r]
  }

  lemma QueuedStep(s: W.System, a: W.Action, key: Key)
    requires W.Exclusive(s) && W.Queued(s.q, key)
    ensures var t := W.Step(s, a); t.q.shut || Owed(t, key)
  {
    if W.IsNext(s, a) {
      match a {
        case Announce(k) => W.AddNowEffect(s.q, k);
        case ListKey(k, spread) => W.AddEffect(s.q, k, s.now, spread);
        case Take(w) => HandingOutOwes(s, w, key);
        case Requeue(w) => W.AddEffect(s.q, s.workers[w].key, s.now, s.workers[w].stage.delay);
        case _ =>
      }
    }
  }

  lemma HandingOutOwes(s: W.System, w: W.WorkerId, key: Key)
    requires W.Exclusive(s) && W.Queued(s.q, key) && w in s.workers && s.workers[w].Free?
    ensures Owed(W.TakeKey(s, w), key)
  {
    W.TakenEffect(s.q, s.now);
    if Taken(s.q, s.now).1 == Some(key) {
      assert W.Holds(W.TakeKey(s, w).workers, w, key);
    }
  }

  lemma PuttingBackQueues(s: W.System, w: W.WorkerId)
    requires W.Exclusive(s) && W.At(s, w) && s.workers[w].stage.Retrying?
    ensures var t := W.PutBack(s, w); t.q.shut || W.Queued(t.q, s.workers[w].key)
  {
    W.AddEffect(s.q, s.workers[w].key, s.now, s.workers[w].stage.delay);
  }

  /** The step of the worker that owes the key a read, unless it reads and is answered. */
  lemma OwingWorkerStep(s: W.System, a: W.Action, w: W.WorkerId)
    requires W.Exclusive(s) && w in s.workers && Owing(s.workers[w])
    requires a.Read? && a.w == w && s.workers[w].stage.Reading? ==> a.reply.Unreadable?
    ensures var t, key := W.Step(s, a), s.workers[w].key;
      || t.q.shut || W.Queued(t.q, key)
      || (w in t.workers && Owing(t.workers[w]) && t.workers[w].key == key)
  {
    if W.ActorOf(a) != Some(w) {
      W.OthersLeaveItAlone(s, a, w);
    } else if a.Requeue? && s.workers[w].stage.Retrying? {
      PuttingBackQueues(s, w);
    }
  }

  lemma OwedStep(s: W.System, a: W.Action, key: Key)
    requires W.Exclusive(s) && Owed(s, key)
    ensures var t := W.Step(s, a);
      || t.q.shut || Owed(t, key)
      || (a.Read? && W.Holds(s.workers, a.w, key) && s.workers[a.w].stage.Reading? && !a.reply.Unreadable?)
  {
    if W.Queued(s.q, key) {
      QueuedStep(s, a, key);
    } else {
      var w :| W.Holds(s.workers, w, key) && Owing(s.workers[w]);
      if !(a.Read? && a.w == w && s.workers[w].stage.Reading? && !a.reply.Unreadable?) {
        OwingWorkerStep(s, a, w);
        var t := W.Step(s, a);
        if !t.q.shut && !W.Queued(t.q, key) { assert W.Holds(t.workers, w, key); }
      }
    }
  }

  /** A key added at `p` is owed a read until the shutdown, or until one that came after `p` is answered. */
  lemma {:induction false} OwedUntilAnswered(
    s: W.System, actions: seq<W.Action>, deeds: seq<nat>, p: nat, after: nat, q: nat, key: Key)
    requires W.Initial(s) && IsClock(deeds, actions) && after == p + 1 && after <= q <= |actions|
    requires var t := W.Run(s, actions[..after]); t.q.shut || Owed(t, key)
    ensures var t := W.Run(s, actions[..q]);
      t.q.shut || Owed(t, key) || AnsweredSince(s, actions, deeds, after, q, key, deeds[p])
    decreases q
  {
    if after < q {
      var r := q - 1;
      var before := W.Run(s, actions[..r]);
      assert actions[..q][..r] == actions[..r] && W.Run(s, actions[..q]) == W.Step(before, actions[r]);
      OwedUntilAnswered(s, actions, deeds, p, after, r, key);
      if AnsweredSince(s, actions, deeds, after, r, key, deeds[p]) {
        assert AnsweredSince(s, actions, deeds, after, q, key, deeds[p]);
      } else if before.q.shut {
        W.ShutStep(before, actions[r]);
      } else {
        W.RunsAreOrderly(s, actions[..r]);
        OwedStep(before, actions[r], key);
        assert ReadsAt(s, actions, r, key) && !actions[r].reply.Unreadable? ==>
                 AnsweredSince(s, actions, deeds, after, q, key, deeds[p]);
      }
    }
  }

  lemma AddingOwes(s: W.System, a: W.Action, key: Key)
    requires W.Exclusive(s) && (a == W.Announce(key) || (a.ListKey? && a.key == key))
    ensures var t := W.Step(s, a); t.q.shut || Owed(t, key)
  {
    AddingCovers(s, a, key, if a.ListKey? then s.now + a.spread else s.now);
  }

  /**
   A key added at `p` is queued, delayed or in the hands of a worker that has yet
   to read its publication or to put it back, at every moment until the shutdown
   or until a read that came after `p` is answered: a failed read does not lose it.
   */
  lemma FailedReadsAreRetried(
    s: W.System, actions: seq<W.Action>, deeds: seq<nat>, p: nat, after: nat, q: nat, key: Key)
    requires W.Initial(s) && IsClock(deeds, actions) && after == p + 1 && after <= q <= |actions|
    requires actions[p] == W.Announce(key) || (actions[p].ListKey? && actions[p].key == key)
    ensures var t := W.Run(s, actions[..q]);
      t.q.shut || Owed(t, key) || AnsweredSince(s, actions, deeds, after, q, key, deeds[p])
  {
    W.RunsAreOrderly(s, actions[..p]);
    AddingOwes(W.Run(s, actions[..p]), actions[p], key);
    assert actions[..after][..p] == actions[..p];
    OwedUntilAnswered(s, actions, deeds, p, after, q, key);
  }

  // -- What the operator makes of a change -----------------------------------------------------------

  /** A change somebody made has a call of its own, of the mark that handled it. */
  lemma ChangeHasItsCall(
    start: Watcher.Cluster, log: seq<Watcher.Deed>, trace: seq<T.Mark>, anchor: nat, position: nat, e: nat)
    returns (m: nat, c: nat)
    requires T.NothingSkipped(start, log, trace, anchor, position)
    requires trace[anchor].position <= e < position && T.IsLoud(start, log, e)
    ensures anchor < m < |trace| && trace[m] == T.Handled(e, true) && c == |CallsBy(start, log, trace[..m])|
    ensures T.KeyOf(start, log, e).Some? && c < |CallsBy(start, log, trace)|
    ensures CallsBy(start, log, trace)[c] == OnKey(T.KeyOf(start, log, e).value, e + 1)
  {
    assert T.HandedOver(start, log, trace, anchor, e);
    m :| anchor < m < |trace| && trace[m].Handled? && trace[m].index == e && trace[m].queued;
    Watcher.FilterIsExact(Watcher.ClusterAt(start, log, e), log[e]);
    c := |CallsBy(start, log, trace[..m])|;
    CallOfMark(start, log, trace, m, 0, c);
  }

  /**
   A change somebody made, in the part of the log the watcher has covered since
   its list, is handled by a mark of its own, whose call is the action `p`. At
   every moment after that and before the shutdown the key is dirty, or in the
   hands of a worker still to read its publication, or the publication has been
   read since `p`, when the change had been made.
   */
  lemma ChangesAreLookedAt(
    s: W.System, actions: seq<W.Action>, deeds: seq<nat>, at: seq<nat>, start: Watcher.Cluster, log: seq<Watcher.Deed>,
    trace: seq<T.Mark>, anchor: nat, position: nat, e: nat) returns (m: nat, p: nat, after: nat)
    requires W.Initial(s) && T.NothingSkipped(start, log, trace, anchor, position)
    requires IsClock(deeds, actions) && Delivered(CallsBy(start, log, trace), actions, deeds, at)
    requires trace[anchor].position <= e < position && T.IsLoud(start, log, e)
    ensures anchor < m < |trace| && trace[m] == T.Handled(e, true) && T.KeyOf(start, log, e).Some?
    ensures |CallsBy(start, log, trace[..m])| < |at| && p == at[|CallsBy(start, log, trace[..m])|]
    ensures p < |actions| && actions[p] == W.Announce(T.KeyOf(start, log, e).value) && e < deeds[p] && after == p + 1
    ensures forall q: nat | p < q <= |actions| ::
              var t, key := W.Run(s, actions[..q]), T.KeyOf(start, log, e).value;
              || t.q.shut || key in t.q.dirty || ReadToCome(t.workers, key)
              || ReadSince(s, actions, deeds, after, q, key, e + 1)
  {
    var c;
    m, c := ChangeHasItsCall(start, log, trace, anchor, position, e);
    p, after := KeyCallIsLookedAt(
      s, actions, deeds, at, CallsBy(start, log, trace), c, T.KeyOf(start, log, e).value, e + 1);
  }

  /** A publication that a list returned has a call of its own. */
  lemma ListedHasItsCall(start: Watcher.Cluster, log: seq<Watcher.Deed>, trace: seq<T.Mark>, m: nat, key: Key)
    returns (i: nat, c: nat)
    requires m < |trace| && trace[m].Listed? && L.InOrder(start, log, trace[..m], trace[m])
    requires key in Watcher.ClusterAt(start, log, trace[m].position)
    ensures i < |trace[m].keys| && trace[m].keys[i] == key && c == |CallsBy(start, log, trace[..m])| + i
    ensures c < |CallsBy(start, log, trace)| && CallsBy(start, log, trace)[c] == OnSyncKey(key, trace[m].position)
  {
    i :| 0 <= i < |trace[m].keys| && trace[m].keys[i] == key;
    c := |CallsBy(start, log, trace[..m])| + i;
    CallOfMark(start, log, trace, m, i, c);
  }

  /**
   A publication that a list returned is added by an action of its own, `p`. At
   every moment after that and before the shutdown the key is dirty, or delayed
   no longer than the spread chosen at `p`, or in the hands of a worker still to
   read its publication, or the publication has been read since `p`.
   */
  lemma ListedAreLookedAt(
    s: W.System, actions: seq<W.Action>, deeds: seq<nat>, at: seq<nat>, start: Watcher.Cluster, log: seq<Watcher.Deed>,
    trace: seq<T.Mark>, m: nat, key: Key) returns (i: nat, p: nat, after: nat, bound: real)
    requires W.Initial(s) && m < |trace| && trace[m].Listed? && L.InOrder(start, log, trace[..m], trace[m])
    requires IsClock(deeds, actions) && Delivered(CallsBy(start, log, trace), actions, deeds, at)
    requires key in Watcher.ClusterAt(start, log, trace[m].position)
    ensures i < |trace[m].keys| && trace[m].keys[i] == key
    ensures |CallsBy(start, log, trace[..m])| + i < |at| && p == at[|CallsBy(start, log, trace[..m])| + i]
    ensures p < |actions| && actions[p].ListKey? && actions[p].key == key && trace[m].position <= deeds[p] && after == p + 1
    ensures bound == W.Run(s, actions[..p]).now + actions[p].spread
    ensures forall q: nat | p < q <= |actions| ::
              var t := W.Run(s, actions[..q]);
              || t.q.shut || W.Covered(t.q, key, bound) || ReadToCome(t.workers, key)
              || ReadSince(s, actions, deeds, after, q, key, trace[m].position)
  {
    var c;
    i, c := ListedHasItsCall(start, log, trace, m, key);
    p, after, bound := SyncCallIsLookedAt(
      s, actions, deeds, at, CallsBy(start, log, trace), c, key, trace[m].position);
  }
}
