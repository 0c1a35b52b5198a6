/**
 The controller's workers over the queue: any number of them, interleaved
 lock-protected section by section, with watchers adding keys, time passing and
 a shutdown arriving at any moment.
 */
module Workers {
  import opened Wrappers
  import opened WorkQueue
  import Backoff

  type WorkerId = nat

  /** How far a worker has got with the key in its hands. */
  datatype Stage =
    | Fetched                           // handed out by `get`
    | Reading                           // in the in-flight map; the publication is to be read
    | Running                           // the publication exists and its pass is running
    | Retrying(delay: real)             // the pass has ended and the key is to come back
    | Finishing(due: Option<real>)      // the key has been put back, or its publication is gone
    | Leaving(due: Option<real>)        // out of the in-flight map; `done` is next

  datatype Worker = Free | Busy(key: Key, stage: Stage) | Exited

  /** How a pass over a key ended, for the key's failure count. */
  datatype Ending = Failed | Succeeded | Vanished

  datatype Pass = Pass(key: Key, ending: Ending)

  datatype System = System(
    q: Queue, failures: map<Key, nat>, base: real, maximum: real, workers: map<WorkerId, Worker>,
    inFlight: map<WorkerId, Key>, stopping: bool, now: real, known: set<Key>, passes: seq<Pass>)

  datatype ReadReply = Unreadable | NotFound | Found

  datatype Action =
    | Announce(key: Key)                            // a watch event queues a key
    | ListKey(key: Key, spread: real)               // a list queues a key within the startup window
    | Tick(to: real)
    | Take(w: WorkerId)
    | Register(w: WorkerId)
    | Read(w: WorkerId, reply: ReadReply, u: real)  // u: the jitter sample of a failure's delay
    | EndPass(w: WorkerId, raised: bool, delay: real, u: real)
    | Requeue(w: WorkerId)
    | Unregister(w: WorkerId)
    | Return(w: WorkerId)
    | Exit(w: WorkerId)
    | Stop
    | ShutQueue

  /** The worker that takes an action; the watchers, the clock and the main thread take the rest. */
  function ActorOf(a: Action): Option<WorkerId> {
    match a
    case Announce(_) | ListKey(_, _) | Tick(_) | Stop | ShutQueue => None
    case _ => Some(a.w)
  }

  // -- Steps ---------------------------------------------------------------------------

  predicate At(s: System, w: WorkerId) { w in s.workers && s.workers[w].Busy? }

  function Put(s: System, w: WorkerId, stage: Stage): System
    requires At(s, w)
  {
    s.(workers := s.workers[w := Busy(s.workers[w].key, stage)])
  }

  /** `add_rate_limited` up to its backoff: the failure is counted and its delay chosen. */
  function Fail(s: System, w: WorkerId, u: real): System
    requires At(s, w)
  {
    var key := s.workers[w].key;
    var n := Backoff.FailuresOf(s.failures, key);
    var delay := Backoff.Jittered(Backoff.Delay(s.base, s.maximum, n, Backoff.CLAMP), u);
    Put(s.(failures := s.failures[key := n + 1], passes := s.passes + [Pass(key, Failed)]), w, Retrying(delay))
  }

  /** `get`: a free worker is handed a key, unless there is none or the queue is shut. */
  function TakeKey(s: System, w: WorkerId): System
    requires w in s.workers && s.workers[w].Free?
  {
    var (q, key) := Taken(s.q, s.now);
    if key.None? then s.(q := q) else s.(q := q, workers := s.workers[w := Busy(key.value, Fetched)])
  }

  function ReadKey(s: System, w: WorkerId, reply: ReadReply, u: real): System
    requires At(s, w)
  {
    var key := s.workers[w].key;
    match reply
    case Unreadable => Fail(s, w, u)
    case NotFound =>
      Put(s.(failures := s.failures - {key}, known := s.known - {key}, passes := s.passes + [Pass(key, Vanished)]),
          w, Finishing(None))
    case Found => Put(s, w, Running)
  }

  function EndKey(s: System, w: WorkerId, raised: bool, delay: real, u: real): System
    requires At(s, w)
  {
    var key := s.workers[w].key;
    if raised then Fail(s, w, u)
    else Put(s.(failures := s.failures - {key}, passes := s.passes + [Pass(key, Succeeded)]), w, Retrying(delay))
  }

  /** Whether an action is one its worker can take next. */
  predicate IsNext(s: System, a: Action) {
    match a
    case Take(w) => w in s.workers && s.workers[w].Free?
    case Exit(w) => w in s.workers && s.workers[w].Free? && s.stopping
    case Register(w) => At(s, w) && s.workers[w].stage.Fetched?
    case Read(w, _, _) => At(s, w) && s.workers[w].stage.Reading?
    case EndPass(w, _, _, _) => At(s, w) && s.workers[w].stage.Running?
    case Requeue(w) => At(s, w) && s.workers[w].stage.Retrying?
    case Unregister(w) => At(s, w) && s.workers[w].stage.Finishing?
    case Return(w) => At(s, w) && s.workers[w].stage.Leaving?
    case _ => true
  }

  function EnterPass(s: System, w: WorkerId): System
    requires At(s, w)
  {
    Put(s.(inFlight := s.inFlight[w := s.workers[w].key]), w, Reading)
  }

  function PutBack(s: System, w: WorkerId): System
    requires At(s, w) && s.workers[w].stage.Retrying?
  {
    var key, delay := s.workers[w].key, s.workers[w].stage.delay;
    Put(s.(q := AddedAfter(s.q, key, s.now, delay)), w, Finishing(Some(s.now + delay)))
  }

  function LeavePass(s: System, w: WorkerId): System
    requires At(s, w) && s.workers[w].stage.Finishing?
  {
    Put(s.(inFlight := s.inFlight - {w}), w, Leaving(s.workers[w].stage.due))
  }

  function GiveBack(s: System, w: WorkerId): System
    requires At(s, w)
  {
    s.(q := Released(s.q, s.workers[w].key), workers := s.workers[w := Free])
  }

  function Quit(s: System, w: WorkerId): System { s.(workers := s.workers[w := Exited]) }

  /** An action that is not its worker's next one changes nothing. */
  function Step(s: System, a: Action): System {
    if !IsNext(s, a) then s
    else match a
      case Announce(key) => s.(q := AddLocked(s.q, key), known := if s.q.shut then s.known else s.known + {key})
      case ListKey(key, spread) =>
        s.(q := AddedAfter(s.q, key, s.now, spread), known := if s.q.shut then s.known else s.known + {key})
      case Tick(to) => if s.now <= to then s.(now := to) else s
      case Stop => s.(stopping := true)
      case ShutQueue => if s.stopping then s.(q := Closed(s.q)) else s
      case Take(w) => TakeKey(s, w)
      case Exit(w) => Quit(s, w)
      case Register(w) => EnterPass(s, w)
      case Read(w, reply, u) => ReadKey(s, w, reply, u)
      case EndPass(w, raised, delay, u) => EndKey(s, w, raised, delay, u)
      case Requeue(w) => PutBack(s, w)
      case Unregister(w) => LeavePass(s, w)
      case Return(w) => GiveBack(s, w)
  }

  function Run(s: System, actions: seq<Action>): System {
    if actions == [] then s else Step(Run(s, actions[..|actions| - 1]), actions[|actions| - 1])
  }

  predicate Initial(s: System) {
    && s.q == EmptyQueue && s.failures == map[] && s.inFlight == map[] && !s.stopping && s.known == {} && s.passes == []
    && forall w | w in s.workers :: s.workers[w].Free?
  }

  lemma OthersLeaveItAlone(s: System, a: Action, w: WorkerId)
    requires w in s.workers && ActorOf(a) != Some(w)
    ensures var t := Step(s, a); w in t.workers && t.workers[w] == s.workers[w]
  {
  }

  /** One more action. */
  lemma RunGrows(s: System, actions: seq<Action>, a: Action)
    ensures Run(s, actions + [a]) == Step(Run(s, actions), a)
  {
    assert (actions + [a])[..|actions|] == actions;
  }

  // -- Mutual exclusion --------------------------------------------------------------------

  type Hands = map<WorkerId, Worker>

  predicate Holds(workers: Hands, w: WorkerId, key: Key) {
    w in workers && workers[w].Busy? && workers[w].key == key
  }

  /** The keys being processed are exactly those in some worker's hands, each in one worker's only. */
  ghost predicate HandsMatch(workers: Hands, processing: set<Key>) {
    && (forall key :: key in processing <==> exists w :: Holds(workers, w, key))
    && (forall v, w, key | Holds(workers, v, key) && Holds(workers, w, key) :: v == w)
  }

  predicate InPass(worker: Worker) {
    worker.Busy? && !worker.stage.Fetched? && !worker.stage.Leaving?
  }

  /** The in-flight map names exactly the workers inside a pass, each with the key it holds. */
  ghost predicate Registered(workers: Hands, inFlight: map<WorkerId, Key>) {
    && (forall w :: w in inFlight <==> w in workers && InPass(workers[w]))
    && (forall w | w in inFlight :: Holds(workers, w, inFlight[w]))
  }

  ghost predicate Exclusive(s: System) {
    WellFormed(s.q) && HandsMatch(s.workers, s.q.processing) && Registered(s.workers, s.inFlight)
  }

  /** A worker moving on with the key it holds changes nobody's hands. */
  lemma MovingOnKeepsHands(workers: Hands, w: WorkerId, stage: Stage, processing: set<Key>)
    requires HandsMatch(workers, processing) && w in workers && workers[w].Busy?
    ensures HandsMatch(workers[w := Busy(workers[w].key, stage)], processing)
  {
    var after := workers[w := Busy(workers[w].key, stage)];
    forall v, key ensures Holds(after, v, key) <==> Holds(workers, v, key) {
    }
    forall key ensures key in processing <==> exists v :: Holds(after, v, key) {
      if v :| Holds(workers, v, key) { assert Holds(after, v, key); }
      if v :| Holds(after, v, key) { assert Holds(workers, v, key); }
    }
  }

  lemma PickingUpKeepsHands(workers: Hands, w: WorkerId, key: Key, stage: Stage, processing: set<Key>)
    requires HandsMatch(workers, processing) && w in workers && !workers[w].Busy? && key !in processing
    ensures HandsMatch(workers[w := Busy(key, stage)], processing + {key})
  {
    var after := workers[w := Busy(key, stage)];
    assert Holds(after, w, key);
    forall v, k ensures Holds(after, v, k) <==> Holds(workers, v, k) || (v == w && k == key) {
    }
    forall k ensures k in processing + {key} <==> exists v :: Holds(after, v, k) {
      if v :| Holds(workers, v, k) { assert Holds(after, v, k); }
    }
  }

  lemma PuttingDownKeepsHands(workers: Hands, w: WorkerId, after: Worker, processing: set<Key>)
    requires HandsMatch(workers, processing) && w in workers && !after.Busy?
    ensures var left := if workers[w].Busy? then processing - {workers[w].key} else processing;
            HandsMatch(workers[w := after], left)
  {
    var left := if workers[w].Busy? then processing - {workers[w].key} else processing;
    var rest := workers[w := after];
    if workers[w].Busy? { assert Holds(workers, w, workers[w].key); }
    forall v, k ensures Holds(rest, v, k) <==> Holds(workers, v, k) && v != w {
    }
    forall k ensures k in left <==> exists v :: Holds(rest, v, k) {
      if v :| Holds(rest, v, k) { assert Holds(workers, v, k); }
      if k in left { var v :| Holds(workers, v, k); assert Holds(rest, v, k); }
    }
  }

  /** What handing out a key does to the queue. */
  lemma TakenEffect(q: Queue, now: real)
    requires WellFormed(q)
    ensures var (r, key) := Taken(q, now);
      && WellFormed(r) && r.shut == q.shut
      && (q.shut ==> r == q && key.None?)
      && (key.None? ==> r.processing == q.processing)
      && (key.Some? ==> key.value !in q.processing && r.processing == q.processing + {key.value})
      && (forall k, bound | Covered(q, k, bound) && key != Some(k) :: Covered(r, k, bound))
      && (forall k | Queued(q, k) && key != Some(k) :: Queued(r, k))
  {
    GetKeeps(q, now);
    if !q.shut {
      PromoteKeeps(q, now);
      PromotionIsExact(q, now);
      var p := Promote(q, now);
      if p.queue != [] {
        assert p.queue[0] in p.queue;
      }
    }
  }

  predicate Queued(q: Queue, key: Key) { key in q.dirty || key in q.deadlines }

  /** The key will come up: it is dirty, or delayed no later than `bound`. */
  predicate Covered(q: Queue, key: Key, bound: real) {
    key in q.dirty || (key in q.deadlines && q.deadlines[key] <= bound)
  }

  /** What was coming up in `q` still is in `r`. */
  ghost predicate KeepsComing(q: Queue, r: Queue) {
    && r.shut == q.shut
    && (forall k, bound | Covered(q, k, bound) :: Covered(r, k, bound))
    && (forall k | Queued(q, k) :: Queued(r, k))
  }

  /** What adding a key does to the queue, now or later. */
  lemma AddEffect(q: Queue, key: Key, now: real, delay: real)
    requires WellFormed(q)
    ensures var r := AddedAfter(q, key, now, delay);
      && WellFormed(r) && r.processing == q.processing && KeepsComing(q, r)
      && (!q.shut ==> Covered(r, key, now + delay))
  {
    AddAfterKeeps(q, key, now, delay);
  }

  lemma AddNowEffect(q: Queue, key: Key)
    requires WellFormed(q)
    ensures var r := AddLocked(q, key);
      && WellFormed(r) && r.processing == q.processing && KeepsComing(q, r)
      && (!q.shut ==> key in r.dirty)
  {
    AddKeeps(q, key);
  }

  /** The in-flight map follows a worker into its pass, through it, and out of it. */
  lemma RegisterFollows(workers: Hands, w: WorkerId, after: Worker, inFlight: map<WorkerId, Key>)
    requires Registered(workers, inFlight) && w in workers
    requires workers[w].Busy? && after.Busy? ==> workers[w].key == after.key
    requires InPass(workers[w]) ==> after.Busy?
    ensures InPass(after) == InPass(workers[w]) ==> Registered(workers[w := after], inFlight)
    ensures InPass(after) && !InPass(workers[w]) ==> Registered(workers[w := after], inFlight[w := after.key])
    ensures !InPass(after) && InPass(workers[w]) ==> Registered(workers[w := after], inFlight - {w})
  {
  }

  lemma TakingKeepsExclusion(s: System, w: WorkerId)
    requires Exclusive(s) && w in s.workers && s.workers[w].Free?
    ensures Exclusive(TakeKey(s, w))
  {
    TakenEffect(s.q, s.now);
    var key := Taken(s.q, s.now).1;
    if key.Some? {
      PickingUpKeepsHands(s.workers, w, key.value, Fetched, s.q.processing);
      RegisterFollows(s.workers, w, Busy(key.value, Fetched), s.inFlight);
    }
  }

  lemma QuittingKeepsExclusion(s: System, w: WorkerId)
    requires Exclusive(s) && w in s.workers && s.workers[w].Free?
    ensures Exclusive(Quit(s, w))
  {
    PuttingDownKeepsHands(s.workers, w, Exited, s.q.processing);
    RegisterFollows(s.workers, w, Exited, s.inFlight);
  }

  lemma EnteringKeepsExclusion(s: System, w: WorkerId)
    requires Exclusive(s) && At(s, w) && s.workers[w].stage.Fetched?
    ensures Exclusive(EnterPass(s, w))
  {
    MovingOnKeepsHands(s.workers, w, Reading, s.q.processing);
    RegisterFollows(s.workers, w, Busy(s.workers[w].key, Reading), s.inFlight);
  }

  /** A worker that goes from one stage of its pass to another. */
  lemma PassingKeepsExclusion(s: System, t: System, w: WorkerId, stage: Stage)
    requires Exclusive(s) && At(s, w) && InPass(s.workers[w]) && InPass(Busy(s.workers[w].key, stage))
    requires t.workers == s.workers[w := Busy(s.workers[w].key, stage)] && t.inFlight == s.inFlight
    requires WellFormed(t.q) && t.q.processing == s.q.processing
    ensures Exclusive(t)
  {
    MovingOnKeepsHands(s.workers, w, stage, s.q.processing);
    RegisterFollows(s.workers, w, Busy(s.workers[w].key, stage), s.inFlight);
  }

  lemma LeavingKeepsExclusion(s: System, w: WorkerId)
    requires Exclusive(s) && At(s, w) && s.workers[w].stage.Finishing?
    ensures Exclusive(LeavePass(s, w))
  {
    MovingOnKeepsHands(s.workers, w, Leaving(s.workers[w].stage.due), s.q.processing);
    RegisterFollows(s.workers, w, Busy(s.workers[w].key, Leaving(s.workers[w].stage.due)), s.inFlight);
  }

  lemma ReturningKeepsExclusion(s: System, w: WorkerId)
    requires Exclusive(s) && At(s, w) && s.workers[w].stage.Leaving?
    ensures Exclusive(GiveBack(s, w))
  {
    var key := s.workers[w].key;
    assert Holds(s.workers, w, key);
    DoneKeeps(s.q, key);
    PuttingDownKeepsHands(s.workers, w, Free, s.q.processing);
    RegisterFollows(s.workers, w, Free, s.inFlight);
  }

  lemma ReadingKeepsExclusion(s: System, w: WorkerId, reply: ReadReply, u: real)
    requires Exclusive(s) && At(s, w) && s.workers[w].stage.Reading?
    ensures Exclusive(ReadKey(s, w, reply, u))
  {
    var t := ReadKey(s, w, reply, u);
    PassingKeepsExclusion(s, t, w, t.workers[w].stage);
  }

  lemma EndingKeepsExclusion(s: System, w: WorkerId, raised: bool, delay: real, u: real)
    requires Exclusive(s) && At(s, w) && s.workers[w].stage.Running?
    ensures Exclusive(EndKey(s, w, raised, delay, u))
  {
    var t := EndKey(s, w, raised, delay, u);
    PassingKeepsExclusion(s, t, w, t.workers[w].stage);
  }

  lemma PuttingBackKeepsExclusion(s: System, w: WorkerId)
    requires Exclusive(s) && At(s, w) && s.workers[w].stage.Retrying?
    ensures Exclusive(PutBack(s, w))
  {
    AddEffect(s.q, s.workers[w].key, s.now, s.workers[w].stage.delay);
    PassingKeepsExclusion(s, PutBack(s, w), w, Finishing(Some(s.now + s.workers[w].stage.delay)));
  }

  lemma StepKeepsExclusion(s: System, a: Action)
    requires Exclusive(s)
    ensures Exclusive(Step(s, a))
  {
    if IsNext(s, a) {
      match a {
        case Announce(key) => AddNowEffect(s.q, key);
        case ListKey(key, spread) => AddEffect(s.q, key, s.now, spread);
        case Tick(_) =>
        case Stop =>
        case ShutQueue =>
        case Take(w) => TakingKeepsExclusion(s, w);
        case Exit(w) => QuittingKeepsExclusion(s, w);
        case Register(w) => EnteringKeepsExclusion(s, w);
        case Unregister(w) => LeavingKeepsExclusion(s, w);
        case Return(w) => ReturningKeepsExclusion(s, w);
        case Read(w, reply, u) => ReadingKeepsExclusion(s, w, reply, u);
        case EndPass(w, raised, delay, u) => EndingKeepsExclusion(s, w, raised, delay, u);
        case Requeue(w) => PuttingBackKeepsExclusion(s, w);
      }
    }
  }

  // -- No key is dropped ------------------------------------------------------------------------

  /** The holder still owes the key a look, or is still to put it back. */
  predicate Caring(worker: Worker) {
    worker.Busy? && (worker.stage.Fetched? || worker.stage.Reading? || worker.stage.Running? || worker.stage.Retrying?)
  }

  ghost predicate InCare(workers: Hands, key: Key) {
    exists w :: Holds(workers, w, key) && Caring(workers[w])
  }

  /** Every key listed or announced, and not since read as gone, is queued, delayed or about to be put back. */
  ghost predicate NothingDropped(q: Queue, workers: Hands, known: set<Key>) {
    forall key | key in known :: Queued(q, key) || InCare(workers, key)
  }

  /** A pass that has put its key back has it coming up by the time it chose. */
  predicate PromiseKept(q: Queue, worker: Worker) {
    match worker
    case Busy(key, Finishing(Some(due))) => Covered(q, key, due)
    case Busy(key, Leaving(Some(due))) => Covered(q, key, due)
    case _ => true
  }

  ghost predicate PromisesKept(q: Queue, workers: Hands) {
    forall w | w in workers :: PromiseKept(q, workers[w])
  }

  /** The promise lasts until the shutdown: a queue that is shut takes nothing back. */
  ghost predicate Lively(s: System) {
    !s.q.shut ==> NothingDropped(s.q, s.workers, s.known) && PromisesKept(s.q, s.workers)
  }

  /** A worker whose care goes from one stage to the next leaves no key without care. */
  lemma CareCarriesOver(workers: Hands, w: WorkerId, after: Worker, key: Key)
    requires w in workers && InCare(workers, key)
    ensures InCare(workers[w := after], key) || Holds(workers, w, key)
    ensures Caring(workers[w]) && Caring(after) && workers[w].key == after.key ==> InCare(workers[w := after], key)
    ensures !Caring(workers[w]) ==> InCare(workers[w := after], key)
  {
    var v: WorkerId :| Holds(workers, v, key) && Caring(workers[v]);
    var rest := workers[w := after];
    if v != w {
      assert Holds(rest, v, key) && Caring(rest[v]);
    } else if Caring(after) && workers[w].key == after.key {
      assert Holds(rest, w, key) && Caring(rest[w]);
    }
  }

  /** One worker moves on while the queue keeps what is coming. */
  lemma MoveKeepsLively(s: System, t: System, w: WorkerId, after: Worker)
    requires !s.q.shut && Lively(s) && w in s.workers && t.workers == s.workers[w := after]
    requires KeepsComing(s.q, t.q) && t.known <= s.known
    requires PromiseKept(t.q, after)
    requires Caring(s.workers[w]) && s.workers[w].key in t.known ==>
               Queued(t.q, s.workers[w].key) || (Caring(after) && after.key == s.workers[w].key)
    ensures Lively(t)
  {
    forall key | key in t.known ensures Queued(t.q, key) || InCare(t.workers, key) {
      if !Queued(s.q, key) { CareCarriesOver(s.workers, w, after, key); }
    }
    forall v | v in t.workers ensures PromiseKept(t.q, t.workers[v]) {
      if v != w { assert PromiseKept(s.q, s.workers[v]); }
    }
  }

  lemma TakingKeepsLively(s: System, w: WorkerId)
    requires Exclusive(s) && Lively(s) && w in s.workers && s.workers[w].Free?
    ensures Lively(TakeKey(s, w))
  {
    var t, key := TakeKey(s, w), Taken(s.q, s.now).1;
    TakenEffect(s.q, s.now);
    if !s.q.shut {
      forall k | k in t.known ensures Queued(t.q, k) || InCare(t.workers, k) {
        if key == Some(k) {
          assert Holds(t.workers, w, k);
        } else if !Queued(s.q, k) && key.Some? {
          CareCarriesOver(s.workers, w, t.workers[w], k);
        }
      }
      forall v | v in t.workers ensures PromiseKept(t.q, t.workers[v]) {
        if v != w && s.workers[v].Busy? {
          assert PromiseKept(s.q, s.workers[v]) && Holds(s.workers, v, s.workers[v].key);
        }
      }
    }
  }

  lemma PuttingBackKeepsLively(s: System, w: WorkerId)
    requires Exclusive(s) && Lively(s) && At(s, w) && s.workers[w].stage.Retrying?
    ensures Lively(PutBack(s, w))
  {
    var key, delay := s.workers[w].key, s.workers[w].stage.delay;
    AddEffect(s.q, key, s.now, delay);
    if !s.q.shut { MoveKeepsLively(s, PutBack(s, w), w, Busy(key, Finishing(Some(s.now + delay)))); }
  }

  lemma ReadingKeepsLively(s: System, w: WorkerId, reply: ReadReply, u: real)
    requires Lively(s) && At(s, w) && s.workers[w].stage.Reading?
    ensures Lively(ReadKey(s, w, reply, u))
  {
    var t := ReadKey(s, w, reply, u);
    if !s.q.shut { MoveKeepsLively(s, t, w, t.workers[w]); }
  }

  lemma EndingKeepsLively(s: System, w: WorkerId, raised: bool, delay: real, u: real)
    requires Lively(s) && At(s, w) && s.workers[w].stage.Running?
    ensures Lively(EndKey(s, w, raised, delay, u))
  {
    var t := EndKey(s, w, raised, delay, u);
    if !s.q.shut { MoveKeepsLively(s, t, w, t.workers[w]); }
  }

  lemma ReturningKeepsLively(s: System, w: WorkerId)
    requires Lively(s) && At(s, w) && s.workers[w].stage.Leaving?
    ensures Lively(GiveBack(s, w))
  {
    if !s.q.shut { MoveKeepsLively(s, GiveBack(s, w), w, Free); }
  }

  /** A worker that only moves on, between the queue and its pass. */
  lemma PassingByKeepsLively(s: System, a: Action)
    requires Lively(s) && IsNext(s, a) && (a.Exit? || a.Register? || a.Unregister?)
    ensures Lively(Step(s, a))
  {
    var t := Step(s, a);
    if !s.q.shut { MoveKeepsLively(s, t, a.w, t.workers[a.w]); }
  }

  lemma StepKeepsLively(s: System, a: Action)
    requires Exclusive(s) && Lively(s)
    ensures Lively(Step(s, a))
  {
    if IsNext(s, a) {
      match a {
        case Announce(key) => AddNowEffect(s.q, key);
        case ListKey(key, spread) => AddEffect(s.q, key, s.now, spread);
        case Tick(_) =>
        case Stop =>
        case ShutQueue =>
        case Take(w) => TakingKeepsLively(s, w);
        case Read(w, reply, u) => ReadingKeepsLively(s, w, reply, u);
        case EndPass(w, raised, delay, u) => EndingKeepsLively(s, w, raised, delay, u);
        case Requeue(w) => PuttingBackKeepsLively(s, w);
        case Return(w) => ReturningKeepsLively(s, w);
        case _ => PassingByKeepsLively(s, a);
      }
    }
  }

  // -- Failure counts ---------------------------------------------------------------------------

  /** How many passes over the key have failed in a row, since it last succeeded or was read as gone. */
  function FailedInARow(passes: seq<Pass>, key: Key): nat {
    if passes == [] then 0
    else
      var before, last := passes[..|passes| - 1], passes[|passes| - 1];
      if last.key != key then FailedInARow(before, key)
      else if last.ending.Failed? then FailedInARow(before, key) + 1
      else 0
  }

  ghost predicate Counted(s: System) {
    forall key :: Backoff.FailuresOf(s.failures, key) == FailedInARow(s.passes, key)
  }

  lemma OneMorePass(passes: seq<Pass>, p: Pass, key: Key)
    ensures FailedInARow(passes + [p], key) ==
            if p.key != key then FailedInARow(passes, key)
            else if p.ending.Failed? then FailedInARow(passes, key) + 1 else 0
  {
    assert (passes + [p])[..|passes|] == passes;
  }

  lemma CountedPass(s: System, t: System, p: Pass)
    requires Counted(s) && t.passes == s.passes + [p]
    requires t.failures == if p.ending.Failed? then s.failures[p.key := Backoff.FailuresOf(s.failures, p.key) + 1]
                           else s.failures - {p.key}
    ensures Counted(t)
  {
    forall key ensures Backoff.FailuresOf(t.failures, key) == FailedInARow(t.passes, key) {
      OneMorePass(s.passes, p, key);
    }
  }

  lemma ReadingKeepsCount(s: System, w: WorkerId, reply: ReadReply, u: real)
    requires Counted(s) && At(s, w)
    ensures Counted(ReadKey(s, w, reply, u))
  {
    if !reply.Found? {
      CountedPass(s, ReadKey(s, w, reply, u), Pass(s.workers[w].key, if reply.NotFound? then Vanished else Failed));
    }
  }

  lemma EndingKeepsCount(s: System, w: WorkerId, raised: bool, delay: real, u: real)
    requires Counted(s) && At(s, w)
    ensures Counted(EndKey(s, w, raised, delay, u))
  {
    CountedPass(s, EndKey(s, w, raised, delay, u), Pass(s.workers[w].key, if raised then Failed else Succeeded));
  }

  /** The only steps that touch the counts are a worker reading its key's publication and ending its pass. */
  lemma StepKeepsCount(s: System, a: Action)
    requires Counted(s)
    ensures Counted(Step(s, a))
  {
    if IsNext(s, a) {
      match a {
        case Read(w, reply, u) => ReadingKeepsCount(s, w, reply, u);
        case EndPass(w, raised, delay, u) => EndingKeepsCount(s, w, raised, delay, u);
        case _ =>
      }
    }
  }

  // -- Every run ----------------------------------------------------------------------------------

  /** Workers leave only once told to stop, and the queue is shut only after that. */
  ghost predicate Orderly(s: System) {
    && (s.q.shut ==> s.stopping)
    && (forall w | w in s.workers && s.workers[w].Exited? :: s.stopping)
  }

  /** One worker moves on, while the queue stays open or shut as it is. */
  lemma MoveKeepsOrder(s: System, t: System, w: WorkerId, after: Worker)
    requires Orderly(s) && w in s.workers && t.workers == s.workers[w := after]
    requires t.q.shut == s.q.shut && t.stopping == s.stopping && (after.Exited? ==> s.stopping)
    ensures Orderly(t)
  {
  }

  lemma WorkKeepsOrder(s: System, a: Action)
    requires Orderly(s) && IsNext(s, a) && (a.Exit? || a.Register? || a.Read? || a.EndPass? || a.Unregister? || a.Return?)
    ensures Orderly(Step(s, a))
  {
    var t := Step(s, a);
    MoveKeepsOrder(s, t, a.w, t.workers[a.w]);
  }

  lemma StepKeepsOrder(s: System, a: Action)
    requires Exclusive(s) && Orderly(s)
    ensures Orderly(Step(s, a))
  {
    if IsNext(s, a) {
      match a {
        case Announce(key) => AddNowEffect(s.q, key);
        case ListKey(key, spread) => AddEffect(s.q, key, s.now, spread);
        case Tick(_) =>
        case Stop =>
        case ShutQueue =>
        case Take(w) => TakenEffect(s.q, s.now);
        case Requeue(w) => AddEffect(s.q, s.workers[w].key, s.now, s.workers[w].stage.delay);
        case _ => WorkKeepsOrder(s, a);
      }
    }
  }

  /** Whatever the interleaving, every reachable state has all four invariants. */
  lemma {:induction false} RunsAreOrderly(s: System, actions: seq<Action>)
    requires Initial(s)
    ensures var t := Run(s, actions); Exclusive(t) && Lively(t) && Counted(t) && Orderly(t)
  {
    if actions == [] {
      forall w ensures w !in s.inFlight && (w in s.workers ==> !InPass(s.workers[w])) {
      }
    } else {
      var before, a := actions[..|actions| - 1], actions[|actions| - 1];
      RunsAreOrderly(s, before);
      var t := Run(s, before);
      StepKeepsExclusion(t, a);
      StepKeepsLively(t, a);
      StepKeepsCount(t, a);
      StepKeepsOrder(t, a);
    }
  }

  /** No two workers ever hold one key, and a worker's pass is over a key in its own hands. */
  lemma NoTwoWorkersHoldAKey(s: System, actions: seq<Action>, v: WorkerId, w: WorkerId)
    requires Initial(s)
    ensures var t := Run(s, actions);
      && (At(t, v) && At(t, w) && v != w ==> t.workers[v].key != t.workers[w].key)
      && (At(t, w) ==> t.workers[w].key in t.q.processing && t.workers[w].key !in t.q.queue)
      && (w in t.inFlight ==> At(t, w) && t.inFlight[w] == t.workers[w].key && t.inFlight[w] in t.q.processing)
      && NoDuplicates(t.q.queue)
      && forall key :: key in t.q.queue <==> key in t.q.dirty && key !in t.q.processing
  {
    RunsAreOrderly(s, actions);
    var t := Run(s, actions);
    if At(t, v) { assert Holds(t.workers, v, t.workers[v].key); }
    if At(t, w) { assert Holds(t.workers, w, t.workers[w].key); }
  }

  /**
   Before the shutdown, a key that was listed or announced is dirty, delayed or
   in some worker's hands until a worker reads its publication as gone.
   */
  lemma NoKeyIsDropped(s: System, actions: seq<Action>, key: Key)
    requires Initial(s)
    ensures var t := Run(s, actions);
      !t.q.shut && key in t.known ==> key in t.q.dirty || key in t.q.deadlines || key in t.q.processing
  {
    RunsAreOrderly(s, actions);
    var t := Run(s, actions);
    if !t.q.shut && key in t.known && !Queued(t.q, key) {
      var w :| Holds(t.workers, w, key) && Caring(t.workers[w]);
    }
  }

  /** Only a worker that finds no publication makes a key unknown; a watch event makes it known again. */
  lemma OnlyGoneIsForgotten(s: System, a: Action, key: Key)
    requires key in s.known && key !in Step(s, a).known
    ensures a.Read? && a.reply.NotFound? && Holds(s.workers, a.w, key)
  {
  }

  /**
   When a worker lets go of a key whose publication exists, or could not be
   read, the key is dirty or comes up within the delay its pass chose.
   */
  lemma PassesComeBack(s: System, actions: seq<Action>, w: WorkerId, due: real)
    requires Initial(s)
    requires var t := Run(s, actions); At(t, w) && t.workers[w].stage == Leaving(Some(due)) && !t.q.shut
    ensures var t := Run(s, actions);
      var after := Step(t, Return(w));
      after.workers[w].Free? && Covered(after.q, t.workers[w].key, due)
  {
    RunsAreOrderly(s, actions);
  }

  /** The delay earned by a run of failures, with a jitter sample. */
  function EarnedDelay(s: System, passes: seq<Pass>, key: Key, u: real): real {
    Backoff.Jittered(Backoff.Delay(s.base, s.maximum, FailedInARow(passes, key), Backoff.CLAMP), u)
  }

  /**
   A key whose publication cannot be read, and one whose pass fails, come back
   after the delay that their run of failures has earned; a success, and a
   publication that is gone, end the run.
   */
  lemma DelayFollowsFailures(s: System, actions: seq<Action>, w: WorkerId, delay: real, u: real)
    requires Initial(s) && At(Run(s, actions), w)
    ensures var t := Run(s, actions);
      var key := t.workers[w].key;
      var retrying := Busy(key, Retrying(EarnedDelay(s, t.passes, key, u)));
      && (t.workers[w].stage.Reading? ==>
            && Step(t, Read(w, Unreadable, u)).workers[w] == retrying
            && Backoff.FailuresOf(Step(t, Read(w, NotFound, u)).failures, key) == 0)
      && (t.workers[w].stage.Running? ==>
            && Step(t, EndPass(w, true, delay, u)).workers[w] == retrying
            && Backoff.FailuresOf(Step(t, EndPass(w, false, delay, u)).failures, key) == 0)
  {
    RunsAreOrderly(s, actions);
    SettingsStay(s, actions);
  }

  lemma {:induction false} SettingsStay(s: System, actions: seq<Action>)
    ensures Run(s, actions).base == s.base && Run(s, actions).maximum == s.maximum
  {
    if actions != [] {
      SettingsStay(s, actions[..|actions| - 1]);
      StepKeepsSettings(Run(s, actions[..|actions| - 1]), actions[|actions| - 1]);
    }
  }

  lemma StepKeepsSettings(s: System, a: Action)
    ensures Step(s, a).base == s.base && Step(s, a).maximum == s.maximum
  {
  }

  /** Once shut, the queue hands nothing out: workers only finish with what they hold. */
  lemma {:induction false} NothingIsHandedOutOnceShut(s: System, actions: seq<Action>)
    requires Exclusive(s) && s.q.shut
    ensures var t := Run(s, actions);
      && Exclusive(t) && t.q.shut && t.q.processing <= s.q.processing
      && (forall w, key | Holds(t.workers, w, key) :: Holds(s.workers, w, key))
  {
    if actions != [] {
      var before, a := actions[..|actions| - 1], actions[|actions| - 1];
      NothingIsHandedOutOnceShut(s, before);
      StepKeepsExclusion(Run(s, before), a);
      ShutStep(Run(s, before), a);
    }
  }

  lemma ShutQueueTakesNothing(q: Queue, key: Key, now: real, delay: real)
    requires q.shut
    ensures AddLocked(q, key) == AddedAfter(q, key, now, delay) == q && Taken(q, now) == (q, None)
  {
  }

  /** A worker's own step hands nothing out. */
  lemma WorkHandsNothingOut(s: System, a: Action)
    requires s.q.shut && IsNext(s, a)
    requires a.Exit? || a.Register? || a.Read? || a.EndPass? || a.Unregister? || a.Return?
    ensures var t := Step(s, a);
      && t.q.shut && t.q.processing <= s.q.processing
      && (forall w, key | Holds(t.workers, w, key) :: Holds(s.workers, w, key))
  {
  }

  lemma ShutStep(s: System, a: Action)
    requires s.q.shut
    ensures var t := Step(s, a);
      && t.q.shut && t.q.processing <= s.q.processing
      && (forall w, key | Holds(t.workers, w, key) :: Holds(s.workers, w, key))
  {
    if IsNext(s, a) {
      match a {
        case Announce(key) => ShutQueueTakesNothing(s.q, key, s.now, 0.0);
        case ListKey(key, spread) => ShutQueueTakesNothing(s.q, key, s.now, spread);
        case Tick(_) =>
        case Stop =>
        case ShutQueue =>
        case Take(w) => ShutQueueTakesNothing(s.q, "", s.now, 0.0);
        case Requeue(w) => ShutQueueTakesNothing(s.q, s.workers[w].key, s.now, s.workers[w].stage.delay);
        case _ => WorkHandsNothingOut(s, a);
      }
    }
  }

  lemma InFlightIsProcessing(s: System, w: WorkerId)
    requires Exclusive(s) && w in s.inFlight
    ensures s.inFlight[w] in s.q.processing
  {
    assert Holds(s.workers, w, s.inFlight[w]);
  }

  lemma NothingInFlight(s: System)
    requires Exclusive(s) && s.q.processing == {}
    ensures s.inFlight == map[]
  {
    if s.inFlight != map[] {
      var w :| w in s.inFlight;
      InFlightIsProcessing(s, w);
    }
  }

  /**
   When `stop` has shut the queue and seen every worker exit, nothing is being
   processed or in flight, and nothing will be again.
   */
  lemma StoppedMeansIdle(s: System, actions: seq<Action>, more: seq<Action>)
    requires Initial(s)
    requires var t := Run(s, actions); t.q.shut && forall w | w in t.workers :: t.workers[w].Exited?
    ensures var t := Run(s, actions); t.q.processing == {} && t.inFlight == map[]
    ensures var u := Run(Run(s, actions), more); u.q.processing == {} && u.inFlight == map[]
  {
    RunsAreOrderly(s, actions);
    var t := Run(s, actions);
    NothingInFlight(t);
    NothingIsHandedOutOnceShut(t, more);
    NothingInFlight(Run(t, more));
  }
}
