/**
 The controller object: what one worker thread does with the queue, the backoff
 and the in-flight map, section by section, while the other workers, the
 watchers, the clock and a stop act on the same objects between any two of its
 sections. Whatever the schedule, its loop brings the objects to where a run of
 the machine in `Workers` brings them.
 */
module Controller {
  import opened Wrappers
  import opened WorkQueue
  import opened Workers
  import Backoff

  /** One moment of a schedule: somebody else acts, or this worker gets on with what is next for it and meets this. */
  datatype Moment =
    | Other(a: Action)
    | Own(
        reply: ReadReply,   // if it reads the publication
        raised: bool,       // if its pass ends
        delay: real,        // the wait a pass that succeeds asks for, or the resync interval drawn for it
        u: real)            // the jitter sample of a failure's delay

  /** How long `get` waits for a key. */
  const GET_TIMEOUT: real := 1.0

  /** Where the worker is in its loop. */
  datatype Spot =
    | Head                  // about to look at the stop flag
    | Asking(until: real)   // in `get`, which gives up then
    | Handling              // with a key in its hands
    | Gone

  datatype Course = Course(state: System, spot: Spot, played: seq<Action>)

  // -- The loop as steps of the machine -----------------------------------------------------------

  /** The worker's next action, with what it meets there. */
  function NextOf(w: WorkerId, worker: Worker, m: Moment): Action
    requires m.Own? && worker.Busy?
  {
    match worker.stage
    case Fetched => Register(w)
    case Reading => Read(w, m.reply, m.u)
    case Running => EndPass(w, m.raised, m.delay, m.u)
    case Retrying(_) => Requeue(w)
    case Finishing(_) => Unregister(w)
    case Leaving(_) => Return(w)
  }

  function Taking(c: Course, a: Action, spot: Spot): Course {
    Course(Step(c.state, a), spot, c.played + [a])
  }

  /** After a turn under `get`'s lock: a key, another wait, or nothing. */
  function AfterAsking(s: System, w: WorkerId, until: real, now: real): Spot {
    if At(s, w) then Handling else if s.q.shut || until <= now then Head else Asking(until)
  }

  /** The same, from what `get` makes of the turn. */
  function Answered(key: Option<Key>, again: bool, until: real): Spot {
    if key.Some? then Handling else if again then Asking(until) else Head
  }

  function Moved(c: Course, w: WorkerId, m: Moment): Course {
    match m
    case Other(a) => Taking(c, a, c.spot)
    case Own(_, _, _, _) =>
      match c.spot
      case Head => if c.state.stopping then Taking(c, Exit(w), Gone) else c.(spot := Asking(c.state.now + GET_TIMEOUT))
      case Asking(until) => Taking(c, Take(w), AfterAsking(Step(c.state, Take(w)), w, until, c.state.now))
      case Handling =>
        if !At(c.state, w) then c
        else
          var a := NextOf(w, c.state.workers[w], m);
          Taking(c, a, if a.Return? then Head else Handling)
      case Gone => c
  }

  /** Where the first `n` moments of a schedule bring the machine, and the actions that were taken on the way. */
  function CourseOf(s: System, w: WorkerId, schedule: seq<Moment>, n: nat): Course
    requires n <= |schedule|
  {
    if n == 0 then Course(s, Head, []) else Moved(CourseOf(s, w, schedule, n - 1), w, schedule[n - 1])
  }

  /** The courses after each moment. */
  ghost predicate MovesThrough(courses: seq<Course>, w: WorkerId, schedule: seq<Moment>, n: nat)
    requires n <= |schedule|
  {
    && |courses| == n + 1
    && forall k {:trigger Moved(courses[k], w, schedule[k])} | 0 <= k < n ::
         courses[k + 1] == Moved(courses[k], w, schedule[k])
  }

  /** The first `n` moments bring a worker that starts at the head of its loop to this course. */
  ghost predicate Brings(s: System, w: WorkerId, schedule: seq<Moment>, n: nat, c: Course)
    requires n <= |schedule|
  {
    exists courses :: MovesThrough(courses, w, schedule, n) && courses[0] == Course(s, Head, []) && courses[n] == c
  }

  lemma BringsOneFurther(s: System, w: WorkerId, schedule: seq<Moment>, n: nat, c: Course, next: Course)
    requires n < |schedule| && Brings(s, w, schedule, n, c) && next == Moved(c, w, schedule[n])
    ensures Brings(s, w, schedule, n + 1, next)
  {
    var courses :| MovesThrough(courses, w, schedule, n) && courses[0] == Course(s, Head, []) && courses[n] == c;
    var longer := courses + [next];
    forall k | 0 <= k < n + 1 ensures longer[k + 1] == Moved(longer[k], w, schedule[k]) {
      if k < n {
        assert courses[k + 1] == Moved(courses[k], w, schedule[k]);
      }
    }
    assert MovesThrough(longer, w, schedule, n + 1);
  }

  lemma {:induction false} BringsToCourse(s: System, w: WorkerId, schedule: seq<Moment>, n: nat, c: Course)
    requires n <= |schedule| && Brings(s, w, schedule, n, c)
    ensures c == CourseOf(s, w, schedule, n)
    decreases n
  {
    if n > 0 {
      var courses :| MovesThrough(courses, w, schedule, n) && courses[0] == Course(s, Head, []) && courses[n] == c;
      var last := n - 1;
      assert courses[last + 1] == Moved(courses[last], w, schedule[last]);
      assert MovesThrough(courses[..n], w, schedule, last);
      BringsToCourse(s, w, schedule, last, courses[last]);
    }
  }

  // -- The loop is a run -------------------------------------------------------------------------------

  /** Nobody else acts as this worker. */
  predicate ActsAlone(schedule: seq<Moment>, w: WorkerId) {
    forall k | 0 <= k < |schedule| && schedule[k].Other? :: ActorOf(schedule[k].a) != Some(w)
  }

  /** What the others did in the first `n` moments, in order. */
  function OthersOf(schedule: seq<Moment>, n: nat): seq<Action>
    requires n <= |schedule|
  {
    if n == 0 then []
    else if schedule[n - 1].Other? then OthersOf(schedule, n - 1) + [schedule[n - 1].a]
    else OthersOf(schedule, n - 1)
  }

  function OthersIn(played: seq<Action>, w: WorkerId): seq<Action> {
    if played == [] then []
    else
      var before, a := OthersIn(played[..|played| - 1], w), played[|played| - 1];
      if ActorOf(a) == Some(w) then before else before + [a]
  }

  /** Whatever the worker did was what was next for it. */
  ghost predicate InTurn(s: System, played: seq<Action>, w: WorkerId) {
    forall k | 0 <= k < |played| && ActorOf(played[k]) == Some(w) :: IsNext(Run(s, played[..k]), played[k])
  }

  /** Where the worker is in its loop is where the machine has it. */
  predicate Placed(c: Course, w: WorkerId) {
    && w in c.state.workers
    && match c.spot
       case Head => c.state.workers[w].Free?
       case Asking(_) => c.state.workers[w].Free?
       case Handling => c.state.workers[w].Busy?
       case Gone => c.state.workers[w].Exited?
  }

  /** The action that a moment of its own is for, if it is for one. */
  function ActionOf(c: Course, w: WorkerId, m: Moment): Option<Action>
    requires m.Own?
  {
    match c.spot
    case Head => if c.state.stopping then Some(Exit(w)) else None
    case Asking(_) => Some(Take(w))
    case Handling => if At(c.state, w) then Some(NextOf(w, c.state.workers[w], m)) else None
    case Gone => None
  }

  lemma OwnMomentIsNext(c: Course, w: WorkerId, m: Moment)
    requires Placed(c, w) && m.Own?
    ensures var t, a := Moved(c, w, m), ActionOf(c, w, m);
      && Placed(t, w)
      && (a.None? ==> t.state == c.state && t.played == c.played)
      && (a.Some? ==> ActorOf(a.value) == Some(w) && IsNext(c.state, a.value)
                      && t.state == Step(c.state, a.value) && t.played == c.played + [a.value])
  {
  }

  lemma PlayedGrows(s: System, played: seq<Action>, w: WorkerId, a: Action)
    requires InTurn(s, played, w) && (ActorOf(a) == Some(w) ==> IsNext(Run(s, played), a))
    ensures InTurn(s, played + [a], w) && Run(s, played + [a]) == Step(Run(s, played), a)
    ensures OthersIn(played + [a], w) == if ActorOf(a) == Some(w) then OthersIn(played, w) else OthersIn(played, w) + [a]
  {
    var longer := played + [a];
    RunGrows(s, played, a);
    assert longer[..|played|] == played;
    forall k | 0 <= k < |longer| && ActorOf(longer[k]) == Some(w) ensures IsNext(Run(s, longer[..k]), longer[k]) {
      if k < |played| {
        assert longer[..k] == played[..k];
      }
    }
  }

  /** The course is a run of the machine, with these actions by the others. */
  ghost predicate IsRun(s: System, w: WorkerId, c: Course, others: seq<Action>) {
    c.state == Run(s, c.played) && InTurn(s, c.played, w) && OthersIn(c.played, w) == others && Placed(c, w)
  }

  lemma OthersMomentIsRun(s: System, w: WorkerId, c: Course, a: Action, others: seq<Action>)
    requires IsRun(s, w, c, others) && ActorOf(a) != Some(w)
    ensures IsRun(s, w, Taking(c, a, c.spot), others + [a])
  {
    OthersLeaveItAlone(c.state, a, w);
    PlayedGrows(s, c.played, w, a);
  }

  lemma OwnMomentIsRun(s: System, w: WorkerId, c: Course, m: Moment, t: Course, others: seq<Action>)
    requires IsRun(s, w, c, others) && m.Own? && t == Moved(c, w, m)
    ensures IsRun(s, w, t, others)
  {
    OwnMomentIsNext(c, w, m);
    if ActionOf(c, w, m).Some? {
      PlayedGrows(s, c.played, w, ActionOf(c, w, m).value);
    }
  }

  /**
   Whatever the schedule, a worker's loop is a run of the machine: the others'
   actions come in it as they were made, and each of the worker's own is the one
   that was next for it.
   */
  lemma {:induction false} LoopIsRun(s: System, w: WorkerId, schedule: seq<Moment>, n: nat)
    requires n <= |schedule| && w in s.workers && s.workers[w].Free? && ActsAlone(schedule, w)
    ensures IsRun(s, w, CourseOf(s, w, schedule, n), OthersOf(schedule, n))
    decreases n
  {
    if n > 0 {
      var before, m := CourseOf(s, w, schedule, n - 1), schedule[n - 1];
      LoopIsRun(s, w, schedule, n - 1);
      if m.Other? {
        OthersMomentIsRun(s, w, before, m.a, OthersOf(schedule, n - 1));
      } else {
        OwnMomentIsRun(s, w, before, m, Moved(before, w, m), OthersOf(schedule, n - 1));
      }
    }
  }

  lemma MovedKeepsExclusion(c: Course, w: WorkerId, m: Moment)
    requires Exclusive(c.state)
    ensures Exclusive(Moved(c, w, m).state)
  {
    if m.Other? {
      StepKeepsExclusion(c.state, m.a);
    } else if ActionOf(c, w, m).Some? {
      StepKeepsExclusion(c.state, ActionOf(c, w, m).value);
    }
  }

  // -- The objects ----------------------------------------------------------------------------------------

  /** The jitter sample of this moment is one the backoff may draw. */
  predicate Drawn(m: Moment, jitter: real) {
    match m
    case Own(_, _, _, u) => -jitter <= u <= jitter
    case Other(Read(_, _, u)) => -jitter <= u <= jitter
    case Other(EndPass(_, _, _, u)) => -jitter <= u <= jitter
    case _ => true
  }

  class Controller {
    const queue: KeyQueue
    const backoff: Backoff.ExponentialBackoff
    var inFlight: map<WorkerId, Key>
    var stopping: bool
    /** What each worker's thread has in its hands. */
    var hands: map<WorkerId, Worker>
    /** `time.monotonic` */
    var now: real

    /** The worker whose loop is run here, and the schedule it is run on. */
    const me: WorkerId
    const schedule: seq<Moment>
    var moment: nat

    ghost const start: System
    ghost var course: Course

    /** The objects are as the machine's state says. */
    ghost predicate Shows(s: System)
      reads this, queue, backoff
    {
      && queue.Model() == s.q && inFlight == s.inFlight && stopping == s.stopping && hands == s.workers && now == s.now
      && backoff.failures == s.failures && backoff.base == s.base && backoff.maximum == s.maximum
    }

    /** The moments so far bring the machine here. */
    ghost predicate Underway()
      reads this
    {
      && moment <= |schedule| && Brings(start, me, schedule, moment, course) && Exclusive(course.state)
      && ActsAlone(schedule, me) && forall k | 0 <= k < |schedule| :: Drawn(schedule[k], backoff.jitter)
    }

    /** And the objects are where they bring it. */
    ghost predicate Valid()
      reads this, queue, backoff
    {
      Underway() && Shows(course.state)
    }

    constructor (base: real, maximum: real, jitter: real, workers: set<WorkerId>, me: WorkerId, schedule: seq<Moment>)
      requires ActsAlone(schedule, me) && forall k | 0 <= k < |schedule| :: Drawn(schedule[k], jitter)
      ensures Valid() && moment == 0 && this.me == me && this.schedule == schedule && course == Course(start, Head, [])
      ensures start == System(EmptyQueue, map[], base, maximum, map w | w in workers :: Free, map[], false, 0.0, {}, [])
      ensures fresh(queue) && fresh(backoff)
    {
      queue := new KeyQueue();
      backoff := new Backoff.ExponentialBackoff(base, maximum, jitter);
      inFlight, stopping, now := map[], false, 0.0;
      hands := map w | w in workers :: Free;
      this.me, this.schedule, moment := me, schedule, 0;
      start := System(EmptyQueue, map[], base, maximum, map w | w in workers :: Free, map[], false, 0.0, {}, []);
      course := Course(
        System(EmptyQueue, map[], base, maximum, map w | w in workers :: Free, map[], false, 0.0, {}, []), Head, []);
      new;
      RunsAreOrderly(start, []);
      assert MovesThrough([course], me, schedule, 0);
    }

    /** This moment is over: the objects are already where it brings the machine. */
    method MoveOn()
      requires moment < |schedule| && Underway() && Shows(Moved(course, me, schedule[moment]).state)
      modifies this`moment, this`course
      ensures Valid() && moment == old(moment) + 1 && course == Moved(old(course), me, schedule[old(moment)])
    {
      ghost var next := Moved(course, me, schedule[moment]);
      MovedKeepsExclusion(course, me, schedule[moment]);
      BringsOneFurther(start, me, schedule, moment, course, next);
      course := next;
      moment := moment + 1;
    }

    /** So is a moment in which this worker has done what was next with the key in its hands. */
    method Did(ghost a: Action)
      requires moment < |schedule| && Underway() && schedule[moment].Own? && course.spot.Handling? && At(course.state, me)
      requires a == NextOf(me, course.state.workers[me], schedule[moment]) && Shows(Step(course.state, a))
      modifies this`moment, this`course
      ensures Valid() && moment == old(moment) + 1 && course.spot == if a.Return? then Head else Handling
    {
      MoveOn();
    }

    /** And so is one in which it has asked for a key. */
    method DidAsk(ghost until: real, ghost spot: Spot)
      requires moment < |schedule| && Underway() && schedule[moment].Own? && course.spot == Asking(until)
      requires Shows(Step(course.state, Take(me)))
      requires spot == AfterAsking(Step(course.state, Take(me)), me, until, course.state.now)
      modifies this`moment, this`course
      ensures Valid() && moment == old(moment) + 1 && course.spot == spot
    {
      MoveOn();
    }

    // -- The sections, whoever runs them -----------------------------------------------------------------

    /** A turn of `get` under its lock. */
    method Get(w: WorkerId, until: real, ghost s: System) returns (key: Option<Key>, again: bool)
      requires Exclusive(s) && Shows(s) && w in hands && hands[w].Free?
      modifies queue, this`hands
      ensures Shows(Step(s, Take(w)))
      ensures hands == (if key.None? then old(hands) else old(hands)[w := Busy(key.value, Fetched)])
      ensures AfterAsking(Step(s, Take(w)), w, until, now) == Answered(key, again, until)
    {
      var wait: Option<real>;
      TakenEffect(s.q, s.now);
      key, wait := queue.TryGet(now, now, until);
      again := wait.Some?;
      if key.Some? {
        hands := hands[w := Busy(key.value, Fetched)];
      }
    }

    method Enter(w: WorkerId, key: Key, ghost s: System)
      requires Shows(s) && w in hands && hands[w] == Busy(key, Fetched)
      modifies this`inFlight, this`hands
      ensures Shows(Step(s, Register(w))) && hands == old(hands)[w := Busy(key, Reading)]
    {
      inFlight := inFlight[w := key];
      hands := hands[w := Busy(key, Reading)];
    }

    /** What the failures of this key so far have earned, with a jitter sample. */
    ghost function Earned(key: Key, u: real): real
      reads backoff
    {
      Backoff.Jittered(Backoff.Delay(backoff.base, backoff.maximum, Backoff.FailuresOf(backoff.failures, key), Backoff.CLAMP), u)
    }

    /** `add_rate_limited` up to its backoff. */
    method CountFailure(w: WorkerId, key: Key, u: real, ghost s: System) returns (delay: real)
      requires Shows(s) && w in hands && hands[w].Busy? && hands[w].key == key && -backoff.jitter <= u <= backoff.jitter
      modifies backoff, this`hands
      ensures Shows(Fail(s, w, u)) && hands == old(hands)[w := Busy(key, Retrying(delay))]
      ensures delay == old(Earned(key, u))
    {
      delay := backoff.NextBackoff(key, u);
      if backoff.jitter == 0.0 {
        ghost var d := Backoff.Delay(s.base, s.maximum, Backoff.FailuresOf(s.failures, key), Backoff.CLAMP);
        assert Backoff.Jittered(d, u) == d * 1.0;
      }
      hands := hands[w := Busy(key, Retrying(delay))];
    }

    /** The first half of `_reconcile`: an unreadable publication counts as a failure, and one that is gone is forgotten. */
    method ReadPublication(w: WorkerId, key: Key, reply: ReadReply, u: real, ghost s: System)
      requires Shows(s) && w in hands && hands[w] == Busy(key, Reading) && -backoff.jitter <= u <= backoff.jitter
      modifies backoff, this`hands
      ensures Shows(Step(s, Read(w, reply, u)))
      ensures match reply
        case Unreadable => hands == old(hands)[w := Busy(key, Retrying(old(Earned(key, u))))]
        case NotFound => hands == old(hands)[w := Busy(key, Finishing(None))]
        case Found => hands == old(hands)[w := Busy(key, Running)]
    {
      match reply {
        case Unreadable =>
          var delay := CountFailure(w, key, u, s);
        case NotFound =>
          backoff.Forget(key);
          hands := hands[w := Busy(key, Finishing(None))];
        case Found =>
          hands := hands[w := Busy(key, Running)];
      }
    }

    /**
     The second half, up to putting the key back: a pass that raises counts as a
     failure and earns its delay, and a success ends the count and keeps the delay
     it asked for.
     */
    method FinishPass(w: WorkerId, key: Key, raised: bool, delay: real, u: real, ghost s: System)
      requires Shows(s) && w in hands && hands[w] == Busy(key, Running) && -backoff.jitter <= u <= backoff.jitter
      modifies backoff, this`hands
      ensures Shows(Step(s, EndPass(w, raised, delay, u)))
      ensures hands == old(hands)[w := Busy(key, Retrying(if raised then old(Earned(key, u)) else delay))]
    {
      if raised {
        var earned := CountFailure(w, key, u, s);
        return;
      }
      backoff.Forget(key);
      hands := hands[w := Busy(key, Retrying(delay))];
    }

    /** `add_after` at the end of a pass. */
    method ComeBack(w: WorkerId, key: Key, delay: real, ghost s: System)
      requires Exclusive(s) && Shows(s) && w in hands && hands[w] == Busy(key, Retrying(delay))
      modifies queue, this`hands
      ensures Shows(Step(s, Requeue(w))) && hands == old(hands)[w := Busy(key, Finishing(Some(now + delay)))]
    {
      queue.AddAfter(key, now, delay);
      hands := hands[w := Busy(key, Finishing(Some(now + delay)))];
    }

    method Leave(w: WorkerId, key: Key, due: Option<real>, ghost s: System)
      requires Shows(s) && w in hands && hands[w] == Busy(key, Finishing(due))
      modifies this`inFlight, this`hands
      ensures Shows(Step(s, Unregister(w))) && hands == old(hands)[w := Busy(key, Leaving(due))]
    {
      inFlight := inFlight - {w};
      hands := hands[w := Busy(key, Leaving(due))];
    }

    /** `done` */
    method LetGo(w: WorkerId, key: Key, due: Option<real>, ghost s: System)
      requires Shows(s) && w in hands && hands[w] == Busy(key, Leaving(due))
      modifies queue, this`hands
      ensures Shows(Step(s, Return(w))) && hands == old(hands)[w := Free]
    {
      queue.Done(key);
      hands := hands[w := Free];
    }

    method Depart(w: WorkerId, ghost s: System)
      requires Shows(s) && w in hands && hands[w].Free? && stopping
      modifies this`hands
      ensures Shows(Step(s, Exit(w))) && hands == old(hands)[w := Exited]
    {
      hands := hands[w := Exited];
    }

    // -- The others ----------------------------------------------------------------------------------------

    /** What another worker does; an action that is not its next one does nothing. */
    method OtherWorks(a: Action, ghost s: System)
      requires Exclusive(s) && Shows(s) && ActorOf(a).Some? && Drawn(Other(a), backoff.jitter)
      modifies queue, backoff, this`hands, this`inFlight
      ensures Shows(Step(s, a))
    {
      if a.w !in hands {
        return;
      }
      match hands[a.w] {
        case Free =>
          if a.Take? {
            var key, again := Get(a.w, now, s);
          } else if a.Exit? && stopping {
            Depart(a.w, s);
          }
        case Exited =>
        case Busy(key, stage) =>
          OtherWorksOn(a, key, stage, s);
      }
    }

    method OtherWorksOn(a: Action, key: Key, stage: Stage, ghost s: System)
      requires Exclusive(s) && Shows(s) && ActorOf(a).Some? && Drawn(Other(a), backoff.jitter)
      requires a.w in hands && hands[a.w] == Busy(key, stage)
      modifies queue, backoff, this`hands, this`inFlight
      ensures Shows(Step(s, a))
    {
      match stage {
        case Fetched => if a.Register? { Enter(a.w, key, s); }
        case Reading => if a.Read? { ReadPublication(a.w, key, a.reply, a.u, s); }
        case Running => if a.EndPass? { FinishPass(a.w, key, a.raised, a.delay, a.u, s); }
        case Retrying(delay) => if a.Requeue? { ComeBack(a.w, key, delay, s); }
        case Finishing(due) => if a.Unregister? { Leave(a.w, key, due, s); }
        case Leaving(due) => if a.Return? { LetGo(a.w, key, due, s); }
      }
    }

    /** `stop`, in its two steps, and what comes from outside. */
    method Happens(a: Action, ghost s: System)
      requires Exclusive(s) && Shows(s) && ActorOf(a).None?
      modifies queue, this`stopping, this`now
      ensures Shows(Step(s, a))
    {
      match a {
        case Announce(key) => queue.Add(key);
        case ListKey(key, spread) => queue.AddAfter(key, now, spread);
        case Tick(to) =>
          if now <= to {
            now := to;
          }
        case Stop => stopping := true;
        case ShutQueue =>
          if stopping {
            queue.Shutdown();
          }
      }
    }

    /** Lets the others act until it is this worker's turn, or the schedule is over. */
    method Await() returns (mine: bool)
      requires Valid()
      modifies this`inFlight, this`stopping, this`hands, this`now, this`moment, this`course, queue, backoff
      ensures Valid() && moment >= old(moment) && course.spot == old(course.spot)
      ensures mine <==> moment < |schedule|
      ensures mine ==> schedule[moment].Own?
      ensures me in old(hands) ==> me in hands && hands[me] == old(hands)[me]
    {
      while moment < |schedule| && schedule[moment].Other?
        invariant Valid() && moment >= old(moment) && course.spot == old(course.spot)
        invariant me in old(hands) ==> me in hands && hands[me] == old(hands)[me]
        decreases |schedule| - moment
      {
        OneOther();
      }
      return moment < |schedule|;
    }

    method OneOther()
      requires Valid() && moment < |schedule| && schedule[moment].Other?
      modifies this`inFlight, this`stopping, this`hands, this`now, this`moment, this`course, queue, backoff
      ensures Valid() && moment == old(moment) + 1 && course.spot == old(course.spot)
      ensures me in old(hands) ==> me in hands && hands[me] == old(hands)[me]
    {
      var a := schedule[moment].a;
      ghost var s := course.state;
      if me in hands { OthersLeaveItAlone(s, a, me); }
      if ActorOf(a).Some? {
        OtherWorks(a, s);
      } else {
        Happens(a, s);
      }
      MoveOn();
    }

    // -- This worker's loop --------------------------------------------------------------------------------
    //
    // Each method goes on until its part is done or the schedule is over.

    /** The worker is handling this key. */
    ghost predicate Handles(key: Key)
      reads this
    {
      course.spot.Handling? && me in hands && hands[me].Busy? && hands[me].key == key
    }

    /** The worker is at the head of its loop, with nothing in its hands. */
    ghost predicate AtHead()
      reads this
    {
      course.spot.Head? && me in hands && hands[me].Free?
    }

    /** `_requeue` and the end of `add_rate_limited`. */
    method PutBack(key: Key)
      requires Valid() && (moment < |schedule| ==> Handles(key) && hands[me].stage.Retrying?)
      modifies this, queue, backoff
      ensures Valid() && moment >= old(moment) && (moment < |schedule| ==> Handles(key) && hands[me].stage.Finishing?)
    {
      if moment == |schedule| {
        return;
      }
      var mine := Await();
      if mine {
        ComeBack(me, key, hands[me].stage.delay, course.state);
        Did(Requeue(me));
      }
    }

    /** `_reconcile`: read the publication, run the pass, and put the key back or drop it. */
    method Reconcile(key: Key)
      requires Valid() && (moment < |schedule| ==> Handles(key) && hands[me].stage.Reading?)
      modifies this, queue, backoff
      ensures Valid() && moment >= old(moment) && (moment < |schedule| ==> Handles(key) && hands[me].stage.Finishing?)
    {
      if moment == |schedule| {
        return;
      }
      var mine := Await();
      if !mine {
        return;
      }
      var reply := schedule[moment].reply;
      ReadPublication(me, key, reply, schedule[moment].u, course.state);
      Did(Read(me, reply, schedule[moment].u));
      if reply.NotFound? {
        return;
      }
      if reply.Found? {
        RunPass(key);
      }
      PutBack(key);
    }

    /** The pass itself, of which only the ending shows here. */
    method RunPass(key: Key)
      requires Valid() && (moment < |schedule| ==> Handles(key) && hands[me].stage.Running?)
      modifies this, queue, backoff
      ensures Valid() && moment >= old(moment) && (moment < |schedule| ==> Handles(key) && hands[me].stage.Retrying?)
    {
      if moment == |schedule| {
        return;
      }
      var mine := Await();
      if mine {
        FinishPass(me, key, schedule[moment].raised, schedule[moment].delay, schedule[moment].u, course.state);
        Did(EndPass(me, schedule[moment].raised, schedule[moment].delay, schedule[moment].u));
      }
    }

    /** Into the in-flight map. */
    method Begin(key: Key)
      requires Valid() && (moment < |schedule| ==> Handles(key) && hands[me].stage.Fetched?)
      modifies this, queue, backoff
      ensures Valid() && moment >= old(moment) && (moment < |schedule| ==> Handles(key) && hands[me].stage.Reading?)
    {
      if moment == |schedule| {
        return;
      }
      var mine := Await();
      if mine {
        Enter(me, key, course.state);
        Did(Register(me));
      }
    }

    /** Out of the in-flight map. */
    method End(key: Key)
      requires Valid() && (moment < |schedule| ==> Handles(key) && hands[me].stage.Finishing?)
      modifies this, queue, backoff
      ensures Valid() && moment >= old(moment) && (moment < |schedule| ==> Handles(key) && hands[me].stage.Leaving?)
    {
      if moment == |schedule| {
        return;
      }
      var mine := Await();
      if mine {
        Leave(me, key, hands[me].stage.due, course.state);
        Did(Unregister(me));
      }
    }

    /** `done`, with the key in hand. */
    method GiveKeyBack(key: Key)
      requires Valid() && (moment < |schedule| ==> Handles(key) && hands[me].stage.Leaving?)
      modifies this, queue, backoff
      ensures Valid() && moment >= old(moment) && (moment < |schedule| ==> AtHead())
    {
      if moment == |schedule| {
        return;
      }
      var mine := Await();
      if mine {
        LetGo(me, key, hands[me].stage.due, course.state);
        Did(Return(me));
      }
    }

    /** The `try`/`finally` around a key: it is given back however its pass goes. */
    method HandleKey(key: Key)
      requires Valid() && (moment < |schedule| ==> Handles(key) && hands[me].stage.Fetched?)
      modifies this, queue, backoff
      ensures Valid() && moment >= old(moment) && (moment < |schedule| ==> AtHead())
    {
      Begin(key);
      Reconcile(key);
      End(key);
      GiveKeyBack(key);
    }

    /** `get`, turn after turn under its lock, until there is a key, the queue is shut or the time is over. */
    method Ask(until: real) returns (key: Option<Key>)
      requires Valid() && (moment < |schedule| ==> course.spot == Asking(until) && me in hands && hands[me].Free?)
      modifies this, queue, backoff
      ensures Valid() && moment >= old(moment)
      ensures moment < |schedule| ==> if key.None? then AtHead() else Handles(key.value) && hands[me].stage.Fetched?
    {
      key := None;
      var again := moment < |schedule|;
      while again
        invariant Valid() && moment >= old(moment)
        invariant again ==> moment < |schedule| && key.None?
        invariant again ==> course.spot == Asking(until) && me in hands && hands[me].Free?
        invariant !again && moment < |schedule| ==>
          if key.None? then AtHead() else Handles(key.value) && hands[me].stage.Fetched?
        decreases |schedule| - moment, again
      {
        again := Await();
        if again {
          key, again := Get(me, until, course.state);
          DidAsk(until, Answered(key, again, until));
          again := again && key.None? && moment < |schedule|;
        }
      }
    }

    /** One time around `_work`'s loop. */
    method TakeTurn() returns (gone: bool)
      requires Valid() && moment < |schedule| && AtHead()
      modifies this, queue, backoff
      ensures Valid() && moment > old(moment)
      ensures gone ==> course.spot.Gone?
      ensures !gone && moment < |schedule| ==> AtHead()
    {
      var mine := Await();
      if !mine {
        return false;
      }
      if stopping {
        Depart(me, course.state);
        MoveOn();
        return true;
      }
      var until := now + GET_TIMEOUT;
      MoveOn();
      var key := Ask(until);
      if key.Some? {
        HandleKey(key.value);
      }
      return false;
    }

    /**
     `_work`: under any schedule, the loop brings the objects exactly where its
     moments bring the machine, to the end of the schedule or until the worker has
     seen the stop flag and left.
     */
    method Work()
      requires Valid() && (moment < |schedule| ==> AtHead())
      modifies this, queue, backoff
      ensures Valid() && Shows(CourseOf(start, me, schedule, moment).state)
      ensures moment == |schedule| || CourseOf(start, me, schedule, moment).spot.Gone?
    {
      var gone := false;
      while moment < |schedule| && !gone
        invariant Valid() && (gone ==> course.spot.Gone?) && (!gone && moment < |schedule| ==> AtHead())
        decreases |schedule| - moment
      {
        gone := TakeTurn();
      }
      BringsToCourse(start, me, schedule, moment, course);
    }
  }

  /**
   A controller just made, one of its workers' loops on any schedule: the objects
   end up as a run of the machine has them, in which the others acted as the
   schedule says and the worker's own actions came each in its turn, and with
   every invariant of such runs.
   */
  method RunWorker(
    base: real, maximum: real, jitter: real, workers: set<WorkerId>, me: WorkerId, schedule: seq<Moment>)
    returns (c: Controller, ghost played: seq<Action>)
    requires me in workers && ActsAlone(schedule, me) && forall k | 0 <= k < |schedule| :: Drawn(schedule[k], jitter)
    ensures Initial(c.start) && c.Shows(Run(c.start, played)) && c.moment <= |schedule|
    ensures InTurn(c.start, played, me) && OthersIn(played, me) == OthersOf(schedule, c.moment)
    ensures c.moment == |schedule| || (me in c.hands && c.hands[me].Exited?)
    ensures var t := Run(c.start, played); Exclusive(t) && Lively(t) && Counted(t) && Orderly(t)
  {
    c := new Controller(base, maximum, jitter, workers, me, schedule);
    c.Work();
    played := CourseOf(c.start, me, schedule, c.moment).played;
    LoopIsRun(c.start, me, schedule, c.moment);
    RunsAreOrderly(c.start, played);
  }
}
