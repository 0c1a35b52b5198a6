/**
 How keys come up again: a key whose pass has ended comes back after the delay
 the pass chose, and keys that wait are handed out in the order they came.
 */
module KeyReturns {
  import opened Wrappers
  import opened WorkQueue
  import opened Workers

  // -- After the delay its pass chose --------------------------------------------------------------

  /**
   The action ends a worker's look at its key and chooses how long the key stays
   away: what a pass that succeeds asks for, and what the failures in a row have
   earned for one that raises or cannot read the publication.
   */
  predicate Chooses(s: System, t: System, w: WorkerId, a: Action, delay: real) {
    && At(t, w)
    && match a
       case EndPass(v, raised, asked, u) =>
         && v == w && t.workers[w].stage.Running?
         && delay == if raised then EarnedDelay(s, t.passes, t.workers[w].key, u) else asked
       case Read(v, reply, u) =>
         && v == w && t.workers[w].stage.Reading? && reply.Unreadable?
         && delay == EarnedDelay(s, t.passes, t.workers[w].key, u)
       case _ => false
  }

  lemma ChoiceIsTaken(s: System, past: seq<Action>, w: WorkerId, a: Action, delay: real)
    requires Initial(s) && Chooses(s, Run(s, past), w, a, delay)
    ensures var t := Run(s, past);
      w in Step(t, a).workers && Step(t, a).workers[w] == Busy(t.workers[w].key, Retrying(delay))
  {
    DelayFollowsFailures(s, past, w, delay, a.u);
  }

  /** A worker that is to put its key back does nothing else before it. */
  lemma RetryingStays(s: System, a: Action, w: WorkerId, key: Key, delay: real)
    requires w in s.workers && s.workers[w] == Busy(key, Retrying(delay)) && a != Requeue(w)
    ensures w in Step(s, a).workers && Step(s, a).workers[w] == Busy(key, Retrying(delay))
  {
    if ActorOf(a) != Some(w) { OthersLeaveItAlone(s, a, w); }
  }

  lemma {:induction false} StillRetrying(
    s: System, actions: seq<Action>, p: nat, after: nat, r: nat, w: WorkerId, a: Action, delay: real)
    requires Initial(s) && after == p + 1 && after <= r <= |actions| && actions[p] == a
    requires Chooses(s, Run(s, actions[..p]), w, a, delay)
    requires forall k | p < k < r :: actions[k] != Requeue(w)
    ensures var t := Run(s, actions[..r]);
      w in t.workers && t.workers[w] == Busy(Run(s, actions[..p]).workers[w].key, Retrying(delay))
    decreases r
  {
    var last := r - 1;
    assert actions[..r] == actions[..last] + [actions[last]];
    RunGrows(s, actions[..last], actions[last]);
    if last == p {
      ChoiceIsTaken(s, actions[..p], w, a, delay);
    } else {
      StillRetrying(s, actions, p, after, last, w, a, delay);
      RetryingStays(Run(s, actions[..last]), actions[last], w, Run(s, actions[..p]).workers[w].key, delay);
    }
  }

  lemma PuttingBackStep(t: System, w: WorkerId, key: Key, delay: real)
    requires w in t.workers && t.workers[w] == Busy(key, Retrying(delay)) && !t.q.shut && WellFormed(t.q)
    ensures var q := Step(t, Requeue(w)).q;
      && (key in q.dirty || (key in q.deadlines && q.deadlines[key] <= t.now + delay))
      && (delay > 0.0 && key !in t.q.deadlines ==> key in q.deadlines && q.deadlines[key] == t.now + delay)
      && (delay > 0.0 && key !in t.q.dirty ==> key !in q.dirty)
  {
    AddEffect(t.q, key, t.now, delay);
    if delay > 0.0 { AddAfterTakesNearest(t.q, key, t.now, delay); }
  }

  /**
   In any run: action `p` ends a worker's look at its key and chooses a delay, and
   `r` is the same worker's next putting back. Unless the queue is shut, the key is
   then dirty or has a deadline no later than that delay from then, and one of
   exactly that delay if it is positive and the key had no deadline already.
   */
  lemma ChosenDelayIsKept(s: System, actions: seq<Action>, p: nat, r: nat, w: WorkerId, delay: real)
    requires Initial(s) && p < r < |actions| && Chooses(s, Run(s, actions[..p]), w, actions[p], delay)
    requires actions[r] == Requeue(w) && forall k | p < k < r :: actions[k] != Requeue(w)
    ensures var key, t, q := Run(s, actions[..p]).workers[w].key, Run(s, actions[..r]), Run(s, actions[..r + 1]).q;
      !t.q.shut ==>
        && (key in q.dirty || (key in q.deadlines && q.deadlines[key] <= t.now + delay))
        && (delay > 0.0 && key !in t.q.deadlines ==> key in q.deadlines && q.deadlines[key] == t.now + delay)
        && (delay > 0.0 && key !in t.q.dirty ==> key !in q.dirty)
  {
    var after := p + 1;
    StillRetrying(s, actions, p, after, r, w, actions[p], delay);
    assert actions[..r + 1] == actions[..r] + [actions[r]];
    RunGrows(s, actions[..r], actions[r]);
    RunsAreOrderly(s, actions[..r]);
    if !Run(s, actions[..r]).q.shut {
      PuttingBackStep(Run(s, actions[..r]), w, Run(s, actions[..p]).workers[w].key, delay);
    }
  }

  // -- Gone, listed, and shut ----------------------------------------------------------------------

  /** The worker is on its way back to the queue with nothing to put back. */
  predicate LetsGo(s: System, w: WorkerId, key: Key) {
    w in s.workers && (s.workers[w] == Busy(key, Finishing(None)) || s.workers[w] == Busy(key, Leaving(None)))
  }

  lemma GoneIsLetGo(t: System, w: WorkerId, u: real)
    requires At(t, w) && t.workers[w].stage.Reading?
    ensures LetsGo(Step(t, Read(w, NotFound, u)), w, t.workers[w].key)
    ensures Step(t, Read(w, NotFound, u)).q == t.q
  {
  }

  lemma LettingGoGoesOn(s: System, a: Action, w: WorkerId, key: Key)
    requires LetsGo(s, w, key) && a != Return(w)
    ensures LetsGo(Step(s, a), w, key)
  {
    if ActorOf(a) != Some(w) { OthersLeaveItAlone(s, a, w); }
  }

  /**
   In any run: action `p` is a worker reading the publication of the key in its
   hands as gone. Until that worker's next return, it does not put the key back.
   */
  lemma {:induction false} GoneIsNotPutBack(
    s: System, actions: seq<Action>, p: nat, after: nat, r: nat, w: WorkerId, u: real)
    requires Initial(s) && after == p + 1 && after <= r <= |actions| && actions[p] == Read(w, NotFound, u)
    requires At(Run(s, actions[..p]), w) && Run(s, actions[..p]).workers[w].stage.Reading?
    requires forall k | p < k < r :: actions[k] != Return(w)
    ensures LetsGo(Run(s, actions[..r]), w, Run(s, actions[..p]).workers[w].key)
    ensures Step(Run(s, actions[..r]), Requeue(w)) == Run(s, actions[..r])
    decreases r
  {
    var last := r - 1;
    assert actions[..r] == actions[..last] + [actions[last]];
    RunGrows(s, actions[..last], actions[last]);
    if last == p {
      GoneIsLetGo(Run(s, actions[..p]), w, u);
    } else {
      GoneIsNotPutBack(s, actions, p, after, last, w, u);
      LettingGoGoesOn(Run(s, actions[..last]), actions[last], w, Run(s, actions[..p]).workers[w].key);
    }
  }

  /** A list delays a key by its spread, neither more nor less, unless it is to come up earlier already. */
  lemma ListedWaitsItsSpread(t: System, key: Key, spread: real)
    requires !t.q.shut && spread > 0.0
    ensures var q := Step(t, ListKey(key, spread)).q;
      && q.dirty == t.q.dirty && key in q.deadlines
      && q.deadlines[key] == if key in t.q.deadlines && t.q.deadlines[key] <= t.now + spread
                             then t.q.deadlines[key] else t.now + spread
  {
    AddAfterTakesNearest(t.q, key, t.now, spread);
  }

  lemma StopShutsStep(t: System, a: Action)
    ensures t.stopping ==> Step(t, a).stopping
    ensures a.Stop? ==> Step(t, a).stopping
    ensures t.stopping && a.ShutQueue? ==> Step(t, a).q.shut
    ensures t.q.shut ==> Step(t, a).q.shut
  {
    if t.q.shut { ShutStep(t, a); }
  }

  /** Once it is stopped a controller goes on stopping, and once its queue is shut after that the queue stays so. */
  lemma {:induction false} StopShuts(s: System, actions: seq<Action>)
    ensures (exists i :: 0 <= i < |actions| && actions[i].Stop?) ==> Run(s, actions).stopping
    ensures (exists i, j :: 0 <= i < j < |actions| && actions[i].Stop? && actions[j].ShutQueue?) ==> Run(s, actions).q.shut
  {
    if actions != [] {
      var last := |actions| - 1;
      var before := actions[..last];
      StopShuts(s, before);
      StopShutsStep(Run(s, before), actions[last]);
      if exists i :: 0 <= i < |actions| && actions[i].Stop? {
        var i :| 0 <= i < |actions| && actions[i].Stop?;
        if i < last { assert before[i].Stop?; }
      }
      if exists i, j :: 0 <= i < j < |actions| && actions[i].Stop? && actions[j].ShutQueue? {
        var i, j :| 0 <= i < j < |actions| && actions[i].Stop? && actions[j].ShutQueue?;
        assert before[i].Stop?;
        if j < last { assert before[j].ShutQueue?; }
      }
    }
  }

  // -- In the order they came ----------------------------------------------------------------------------

  /** The action hands a key to its worker. */
  predicate HandsOut(t: System, a: Action) {
    a.Take? && a.w in t.workers && t.workers[a.w].Free? && a.w in Step(t, a).workers && Step(t, a).workers[a.w].Busy?
  }

  /** How many keys are handed out from one moment up to another. */
  function Handouts(s: System, actions: seq<Action>, lo: nat, hi: nat): nat
    requires lo <= hi <= |actions|
  {
    if lo == hi then 0
    else Handouts(s, actions, lo, hi - 1) + if HandsOut(Run(s, actions[..hi - 1]), actions[hi - 1]) then 1 else 0
  }

  lemma TakingTheFirst(t: System, w: WorkerId)
    requires WellFormed(t.q) && w in t.workers && t.workers[w].Free?
    ensures var u := TakeKey(t, w);
      if u.workers[w].Free? then t.q.queue <= u.q.queue
      else u.workers[w].Busy? && (t.q.queue != [] ==>
             u.workers[w] == Busy(t.q.queue[0], Fetched) && t.q.queue[1..] <= u.q.queue)
  {
    if !t.q.shut {
      GetServesInOrder(t.q, t.now);
      var line := t.q.queue + Appended(t.q, t.now);
      if t.q.queue != [] { assert line[1..] == t.q.queue[1..] + Appended(t.q, t.now); }
    }
  }

  /** Keys are added behind those that wait, and only the first is taken away. */
  lemma QueueStep(t: System, a: Action)
    requires Exclusive(t)
    ensures var u := Step(t, a);
      if HandsOut(t, a)
      then t.q.queue != [] ==> u.workers[a.w] == Busy(t.q.queue[0], Fetched) && t.q.queue[1..] <= u.q.queue
      else t.q.queue <= u.q.queue
  {
    if IsNext(t, a) && a.Take? { TakingTheFirst(t, a.w); }
  }

  /** A key that waited behind `i` others waits behind all of them but the `h` that have been handed out. */
  predicate Waits(queue: seq<Key>, key: Key, i: nat, h: nat) {
    h <= i ==> i - h < |queue| && queue[i - h] == key
  }

  lemma WaitsOneMoreStep(t: System, a: Action, u: System, key: Key, i: nat, h: nat, more: nat)
    requires Exclusive(t) && u == Step(t, a) && Waits(t.q.queue, key, i, h)
    requires more == h + if HandsOut(t, a) then 1 else 0
    ensures Waits(u.q.queue, key, i, more)
  {
    QueueStep(t, a);
  }

  lemma {:induction false} WaitsItsTurn(s: System, actions: seq<Action>, p: nat, q: nat, i: nat)
    requires Initial(s) && p <= q <= |actions| && i < |Run(s, actions[..p]).q.queue|
    ensures Waits(Run(s, actions[..q]).q.queue, Run(s, actions[..p]).q.queue[i], i, Handouts(s, actions, p, q))
    decreases q
  {
    if p < q {
      var r := q - 1;
      WaitsItsTurn(s, actions, p, r, i);
      assert actions[..q] == actions[..r] + [actions[r]];
      RunGrows(s, actions[..r], actions[r]);
      RunsAreOrderly(s, actions[..r]);
      WaitsOneMoreStep(Run(s, actions[..r]), actions[r], Run(s, actions[..q]), Run(s, actions[..p]).q.queue[i], i,
                       Handouts(s, actions, p, r), Handouts(s, actions, p, q));
    }
  }

  /**
   First come, first served: of the keys handed out after some moment, one that
   then waited behind `i` others is the one handed out after `i` of them. A key
   given back, added or fallen due meanwhile waits behind it.
   */
  lemma ServedInTurn(s: System, actions: seq<Action>, p: nat, r: nat, i: nat)
    requires Initial(s) && p <= r < |actions| && i < |Run(s, actions[..p]).q.queue|
    requires HandsOut(Run(s, actions[..r]), actions[r]) && Handouts(s, actions, p, r) == i
    ensures Step(Run(s, actions[..r]), actions[r]).workers[actions[r].w] == Busy(Run(s, actions[..p]).q.queue[i], Fetched)
  {
    WaitsItsTurn(s, actions, p, r, i);
    RunsAreOrderly(s, actions[..r]);
    QueueStep(Run(s, actions[..r]), actions[r]);
  }
}
