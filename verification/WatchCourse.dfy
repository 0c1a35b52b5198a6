/**
 The course a watcher's loop takes: what it lists, watches from, handles and
 loses, and the position it is left holding, from the answers it gets alone.
 */
module WatchCourse {
  import opened Wrappers
  import opened WatchTraces

  // -- What the apiserver answers --------------------------------------------------------------

  datatype Failure =
    | Expired       // 410: the position has been compacted away
    | AccessLost    // 401, 403 or 404
    | Trouble       // anything else

  datatype ListReply = Items(position: nat) | ListFails(failure: Failure)

  datatype End = Closed | Breaks(failure: Failure)

  datatype Arrival = Never | DuringStream(handled: nat) | Waiting

  /** One turn of the loop: the list if one is made, how many events the watch yields and how it ends, and when a stop arrives. */
  datatype Round = Round(list: ListReply, events: nat, end: End, stop: Arrival)

  datatype WatchReply = Reached(position: nat) | Broken(failure: Failure)

  // -- A trace without what the log decides ---------------------------------------------------------

  /** A mark without the order in which a list came, and without what the filter said of an event. */
  function BareMark(x: Mark): Mark {
    match x
    case Listed(n, _) => Listed(n, [])
    case Handled(i, _) => Handled(i, false)
    case _ => x
  }

  function Bare(trace: seq<Mark>): seq<Mark> {
    seq(|trace|, i requires 0 <= i < |trace| => BareMark(trace[i]))
  }

  lemma BareGrows(trace: seq<Mark>, x: Mark)
    ensures Bare(trace + [x]) == Bare(trace) + [BareMark(x)]
  {
  }

  // -- One turn --------------------------------------------------------------------------------------

  /** Where a watch from `from` has got to when its stream is over, in a log of this size. */
  function StreamEnd(size: nat, position: nat, round: Round): nat {
    if position + round.events <= size then position + round.events else if position <= size then size else position
  }

  /** The stop arrives while the stream still has an event to yield. */
  predicate CutShort(size: nat, position: nat, round: Round) {
    round.stop.DuringStream? && position + round.stop.handled < StreamEnd(size, position, round)
  }

  /** The first event the watch leaves unhandled. */
  function HandledUpTo(size: nat, position: nat, round: Round): (n: nat)
    ensures position <= n
  {
    if CutShort(size, position, round) then position + round.stop.handled else StreamEnd(size, position, round)
  }

  /** These marks, and then a watch opened at a position and the events it handles, up to `at`. */
  function WatchMarks(before: seq<Mark>, position: nat, at: nat): seq<Mark>
    requires position <= at
    decreases at
  {
    if position == at then before + [Resumed(position)]
    else WatchMarks(before, position, at - 1) + [Handled(at - 1, false)]
  }

  /** The event at which a stop is seen has been yielded, and counts for the position, but is not handled. */
  function Replied(size: nat, position: nat, round: Round): WatchReply {
    if CutShort(size, position, round) then Reached(position + round.stop.handled + 1)
    else match round.end
      case Closed => Reached(StreamEnd(size, position, round))
      case Breaks(failure) => Broken(failure)
  }

  /** The position watched from: the one held, or else the one a list answers. */
  function WatchedPosition(held: Option<nat>, round: Round): Option<nat> {
    if held.Some? then held
    else match round.list
      case Items(n) => Some(n)
      case ListFails(_) => None
  }

  /** How the attempt to list and watch fails, if it does. */
  function FailureOf(size: nat, held: Option<nat>, round: Round): Option<Failure> {
    match WatchedPosition(held, round)
    case None => Some(round.list.failure)
    case Some(n) =>
      match Replied(size, n, round)
      case Reached(_) => None
      case Broken(failure) => Some(failure)
  }

  /** The position held after the attempt, whatever its failure makes of it. */
  function PositionOf(size: nat, held: Option<nat>, round: Round): Option<nat> {
    match WatchedPosition(held, round)
    case None => None
    case Some(n) =>
      match Replied(size, n, round)
      case Reached(p) => Some(p)
      case Broken(_) => Some(n)
  }

  /** These marks, and then a list if one is made and answered. */
  function ListMarks(before: seq<Mark>, held: Option<nat>, round: Round): seq<Mark> {
    if held.None? && round.list.Items? then before + [Listed(round.list.position, [])] else before
  }

  /** These marks, and then an attempt to list and watch. */
  function AttemptMarks(before: seq<Mark>, size: nat, held: Option<nat>, round: Round): seq<Mark> {
    match WatchedPosition(held, round)
    case None => before
    case Some(n) => WatchMarks(ListMarks(before, held, round), n, HandledUpTo(size, n, round))
  }

  /** Only a compacted position and a refused access lose the position. */
  predicate Loses(failure: Option<Failure>) { failure == Some(Expired) || failure == Some(AccessLost) }

  /** These marks, and then the loss if there is one. */
  function LossMarks(before: seq<Mark>, failure: Option<Failure>): seq<Mark> {
    if Loses(failure) then before + [Lost(failure == Some(AccessLost))] else before
  }

  function HeldAfter(size: nat, held: Option<nat>, round: Round): Option<nat> {
    if Loses(FailureOf(size, held, round)) then None else PositionOf(size, held, round)
  }

  predicate StopsIn(held: Option<nat>, round: Round) {
    round.stop.Waiting? || (round.stop.DuringStream? && WatchedPosition(held, round).Some?)
  }

  // -- Turn after turn ---------------------------------------------------------------------------------

  datatype Course = Course(held: Option<nat>, stopped: bool, marks: seq<Mark>)

  function Turned(size: nat, c: Course, round: Round): Course {
    if c.stopped then c
    else Course(HeldAfter(size, c.held, round), StopsIn(c.held, round),
                LossMarks(AttemptMarks(c.marks, size, c.held, round), FailureOf(size, c.held, round)))
  }

  /** A turn is an attempt and what is made of its failure. */
  lemma TurnedIs(size: nat, c: Course, round: Round, tried: seq<Mark>, marks: seq<Mark>, position: Option<nat>)
    requires !c.stopped && tried == AttemptMarks(c.marks, size, c.held, round)
    requires marks == LossMarks(tried, FailureOf(size, c.held, round))
    requires position == HeldAfter(size, c.held, round)
    ensures Turned(size, c, round) == Course(position, StopsIn(c.held, round), marks)
  {
  }

  /** The course over the first `n` of these turns, from no position, after these marks. */
  function CourseOf(size: nat, stopped: bool, before: seq<Mark>, rounds: seq<Round>, n: nat): Course
    requires n <= |rounds|
  {
    if n == 0 then Course(None, stopped, before)
    else Turned(size, CourseOf(size, stopped, before, rounds, n - 1), rounds[n - 1])
  }

  /** Once stopped, nothing more is done. */
  lemma {:induction false} StoppedCourseStays(size: nat, stopped: bool, before: seq<Mark>, rounds: seq<Round>, i: nat, n: nat)
    requires i <= n <= |rounds| && CourseOf(size, stopped, before, rounds, i).stopped
    ensures CourseOf(size, stopped, before, rounds, n) == CourseOf(size, stopped, before, rounds, i)
    decreases n
  {
    if i < n {
      StoppedCourseStays(size, stopped, before, rounds, i, n - 1);
    }
  }

  // -- A course nothing disturbs -----------------------------------------------------------------------

  /** The events handled, in order. */
  function EventsOf(marks: seq<Mark>): seq<nat> {
    if marks == [] then []
    else
      var before := EventsOf(marks[..|marks| - 1]);
      match marks[|marks| - 1]
      case Handled(i, _) => before + [i]
      case _ => before
  }

  function Range(lo: nat, hi: nat): seq<nat>
    requires lo <= hi
  {
    if lo == hi then [] else Range(lo, hi - 1) + [hi - 1]
  }

  lemma EventsGrow(marks: seq<Mark>, x: Mark)
    ensures EventsOf(marks + [x]) == if x.Handled? then EventsOf(marks) + [x.index] else EventsOf(marks)
  {
    assert (marks + [x])[..|marks|] == marks;
  }

  lemma {:induction false} EventsOfWatch(before: seq<Mark>, first: nat, position: nat, at: nat)
    requires first <= position <= at && EventsOf(before) == Range(first, position)
    ensures EventsOf(WatchMarks(before, position, at)) == Range(first, at)
    decreases at
  {
    if position == at {
      EventsGrow(before, Resumed(position));
    } else {
      var last := at - 1;
      EventsOfWatch(before, first, position, last);
      EventsGrow(WatchMarks(before, position, last), Handled(last, false));
    }
  }

  predicate Undisturbed(round: Round) { round.end.Closed? && round.stop.Never? }

  /** The course has handled each event from `first` up to the position held, once and in order. */
  predicate HandledOnce(c: Course, first: nat) {
    !c.stopped && c.held.Some? && first <= c.held.value && EventsOf(c.marks) == Range(first, c.held.value)
  }

  lemma UndisturbedTurn(size: nat, c: Course, round: Round, first: nat)
    requires Undisturbed(round)
    requires HandledOnce(c, first) || (c == Course(None, false, []) && round.list == Items(first))
    ensures HandledOnce(Turned(size, c, round), first)
  {
    var position := WatchedPosition(c.held, round).value;
    EventsGrow(c.marks, Listed(position, []));
    EventsOfWatch(ListMarks(c.marks, c.held, round), first, position, StreamEnd(size, position, round));
  }

  /** As long as every stream is closed by the apiserver, each event from the first list on is handled once, in order. */
  lemma {:induction false} UndisturbedHandlesOnce(size: nat, rounds: seq<Round>, n: nat)
    requires 0 < n <= |rounds| && rounds[0].list.Items? && forall i | 0 <= i < n :: Undisturbed(rounds[i])
    ensures HandledOnce(CourseOf(size, false, [], rounds, n), rounds[0].list.position)
    decreases n
  {
    if n > 1 { UndisturbedHandlesOnce(size, rounds, n - 1); }
    UndisturbedTurn(size, CourseOf(size, false, [], rounds, n - 1), rounds[n - 1], rounds[0].list.position);
  }

  // -- What an attempt leaves for the next ------------------------------------------------------------------

  /** The turn watches from this position: the one held, or the one its list answers. */
  predicate WatchesFrom(held: Option<nat>, round: Round, position: nat) {
    held == Some(position) || (held.None? && round.list == Items(position))
  }

  /** A stop arrives while the stream still has an event to yield. */
  predicate StoppedMidway(size: nat, position: nat, round: Round) {
    match round.stop
    case DuringStream(handled) => handled < round.events && position + handled < size
    case _ => false
  }

  /** The turn's list, or its watch, failed like this. */
  predicate FailsWith(size: nat, held: Option<nat>, round: Round, position: nat, failure: Failure) {
    || (held.None? && round.list == ListFails(failure))
    || (WatchesFrom(held, round, position) && !StoppedMidway(size, position, round) && round.end == Breaks(failure))
  }

  /** After a 410, and after a refused access, no position is held. */
  lemma FatalFailureLosesThePosition(size: nat, c: Course, round: Round, position: nat, failure: Failure)
    requires !c.stopped && position <= size && FailsWith(size, c.held, round, position, failure)
    requires failure == Expired || failure == AccessLost
    ensures Turned(size, c, round).held.None?
  {
  }

  /** After a watch that closed, the position is past what its stream yielded; after one that broke otherwise, where it began. */
  lemma OtherEndsKeepThePosition(size: nat, c: Course, round: Round, position: nat)
    requires !c.stopped && position <= size && WatchesFrom(c.held, round, position) && !StoppedMidway(size, position, round)
    ensures round.end == Breaks(Trouble) ==> Turned(size, c, round).held == Some(position)
    ensures round.end == Closed && position + round.events <= size ==>
              Turned(size, c, round).held == Some(position + round.events)
    ensures round.end == Closed && position + round.events > size ==> Turned(size, c, round).held == Some(size)
  {
  }

  lemma {:induction false} WatchMarksExtend(before: seq<Mark>, position: nat, at: nat)
    requires position <= at
    ensures var after := WatchMarks(before, position, at);
      && |before| < |after| && before <= after && after[|before|] == Resumed(position)
      && forall m | |before| < m < |after| :: after[m] == Handled(position + m - |before| - 1, false)
    ensures |WatchMarks(before, position, at)| == |before| + 1 + (at - position)
    decreases at
  {
    if position < at {
      WatchMarksExtend(before, position, at - 1);
    }
  }

  /** How many events the watch handles. */
  function HandledCount(size: nat, position: nat, round: Round): nat
    requires position <= size
  {
    if StoppedMidway(size, position, round) then round.stop.handled
    else if position + round.events <= size then round.events else size - position
  }

  /**
   A turn that watches, exactly: the list if no position was held, the watch, the
   events handled in order, and the loss if it failed with a 410 or a refused
   access. A stop leaves the event at which it is seen, and those after it, unhandled.
   */
  lemma WatchingTurnIsExact(size: nat, c: Course, round: Round, position: nat, first: nat)
    requires !c.stopped && position <= size && WatchesFrom(c.held, round, position)
    requires first == |c.marks| + if c.held.None? then 1 else 0
    ensures var t, handled := Turned(size, c, round), HandledCount(size, position, round);
      var fatal := !StoppedMidway(size, position, round) && (round.end == Breaks(Expired) || round.end == Breaks(AccessLost));
      && c.marks <= t.marks && |t.marks| == first + 1 + handled + (if fatal then 1 else 0)
      && (c.held.None? ==> t.marks[|c.marks|] == Listed(position, []))
      && t.marks[first] == Resumed(position)
      && (forall m | first < m <= first + handled :: t.marks[m] == Handled(position + m - first - 1, false))
      && (fatal ==> t.marks[|t.marks| - 1] == Lost(round.end == Breaks(AccessLost)))
      && (t.stopped <==> round.stop.Waiting? || round.stop.DuringStream?)
      && (StoppedMidway(size, position, round) ==> t.held == Some(position + handled + 1))
  {
    WatchMarksExtend(ListMarks(c.marks, c.held, round), position, HandledUpTo(size, position, round));
  }

  /** A turn whose list fails, exactly: only the loss of access is felt, and nothing is watched. */
  lemma FailedListIsExact(size: nat, c: Course, round: Round)
    requires !c.stopped && c.held.None? && round.list.ListFails?
    ensures var t, failure := Turned(size, c, round), round.list.failure;
      && t.held.None? && (t.stopped <==> round.stop.Waiting?)
      && t.marks == (if failure == Trouble then c.marks else c.marks + [Lost(failure == AccessLost)])
  {
  }

  /** The marks that a turn adds. */
  lemma TurnExtends(size: nat, c: Course, round: Round)
    requires !c.stopped
    ensures var t := Turned(size, c, round);
      && c.marks <= t.marks
      && (forall position | c.held == Some(position) :: |c.marks| < |t.marks| && t.marks[|c.marks|] == Resumed(position))
      && (forall position | c.held.None? && round.list == Items(position) ::
            && |c.marks| + 1 < |t.marks|
            && t.marks[|c.marks|] == Listed(position, []) && t.marks[|c.marks| + 1] == Resumed(position))
      && (c.held.None? && round.list.ListFails? ==>
            t.held.None? && forall m | |c.marks| <= m < |t.marks| :: t.marks[m].Lost?)
  {
    match WatchedPosition(c.held, round) {
      case None =>
      case Some(n) => WatchMarksExtend(ListMarks(c.marks, c.held, round), n, HandledUpTo(size, n, round));
    }
  }

  lemma {:induction false} MarksStay(size: nat, stopped: bool, before: seq<Mark>, rounds: seq<Round>, i: nat, n: nat)
    requires i <= n <= |rounds|
    ensures CourseOf(size, stopped, before, rounds, i).marks <= CourseOf(size, stopped, before, rounds, n).marks
    decreases n
  {
    if i < n {
      var last := n - 1;
      var c := CourseOf(size, stopped, before, rounds, last);
      MarksStay(size, stopped, before, rounds, i, last);
      if !c.stopped { TurnExtends(size, c, rounds[last]); }
    }
  }

  /** A list comes somewhere between these marks. */
  ghost predicate ListedBetween(marks: seq<Mark>, lo: nat, hi: nat)
    requires hi <= |marks|
  {
    exists l :: lo <= l < hi && marks[l].Listed?
  }

  /** From mark `lo` on nothing is watched before something is listed, and no position is held before that. */
  ghost predicate ListsFirst(c: Course, lo: nat) {
    && lo <= |c.marks|
    && (forall m: nat | lo <= m < |c.marks| && c.marks[m].Resumed? :: ListedBetween(c.marks, lo, m))
    && (c.held.Some? ==> ListedBetween(c.marks, lo, |c.marks|))
  }

  lemma ListedStays(marks: seq<Mark>, longer: seq<Mark>, lo: nat, hi: nat, upTo: nat)
    requires marks <= longer && hi <= |marks| && hi <= upTo <= |longer| && ListedBetween(marks, lo, hi)
    ensures ListedBetween(longer, lo, upTo)
  {
    var l :| lo <= l < hi && marks[l].Listed?;
    assert longer[l].Listed?;
  }

  lemma TurnListsFirst(size: nat, c: Course, round: Round, lo: nat)
    requires !c.stopped && ListsFirst(c, lo)
    ensures ListsFirst(Turned(size, c, round), lo)
  {
    var t := Turned(size, c, round);
    TurnExtends(size, c, round);
    forall m: nat | lo <= m < |t.marks| && t.marks[m].Resumed? ensures ListedBetween(t.marks, lo, m) {
      if m < |c.marks| {
        assert c.marks[m].Resumed?;
        ListedStays(c.marks, t.marks, lo, m, m);
      } else if c.held.Some? {
        ListedStays(c.marks, t.marks, lo, |c.marks|, m);
      } else {
        assert t.marks[|c.marks|].Listed?;
      }
    }
    if t.held.Some? {
      if c.held.Some? {
        ListedStays(c.marks, t.marks, lo, |c.marks|, |t.marks|);
      } else {
        assert t.marks[|c.marks|].Listed?;
      }
    }
  }

  lemma {:induction false} CourseListsFirst(size: nat, stopped: bool, before: seq<Mark>, rounds: seq<Round>, i: nat, n: nat)
    requires i <= n <= |rounds| && CourseOf(size, stopped, before, rounds, i).held.None?
    ensures ListsFirst(CourseOf(size, stopped, before, rounds, n), |CourseOf(size, stopped, before, rounds, i).marks|)
    decreases n
  {
    if i < n {
      var last := n - 1;
      CourseListsFirst(size, stopped, before, rounds, i, last);
      var c := CourseOf(size, stopped, before, rounds, last);
      if !c.stopped { TurnListsFirst(size, c, rounds[last], |CourseOf(size, stopped, before, rounds, i).marks|); }
    }
  }

  /**
   After a turn whose list or watch failed with a 410 or a refused access no
   position is held, and in all that follows nothing is watched before something
   has been listed anew.
   */
  lemma FatalFailureMeansRelisting(
    size: nat, stopped: bool, before: seq<Mark>, rounds: seq<Round>, i: nat, next: nat, n: nat, position: nat, failure: Failure)
    requires next == i + 1 && next <= n <= |rounds| && !CourseOf(size, stopped, before, rounds, i).stopped && position <= size
    requires FailsWith(size, CourseOf(size, stopped, before, rounds, i).held, rounds[i], position, failure)
    requires failure == Expired || failure == AccessLost
    ensures var failed, end := CourseOf(size, stopped, before, rounds, next), CourseOf(size, stopped, before, rounds, n);
      && failed.held.None? && failed.marks <= end.marks
      && forall m: nat | |failed.marks| <= m < |end.marks| && end.marks[m].Resumed? ::
           ListedBetween(end.marks, |failed.marks|, m)
  {
    FatalFailureLosesThePosition(size, CourseOf(size, stopped, before, rounds, i), rounds[i], position, failure);
    CourseListsFirst(size, stopped, before, rounds, next, n);
    MarksStay(size, stopped, before, rounds, next, n);
  }

  /** Where the watch after this one is to begin, if this one is closed or breaks. */
  predicate EndsAt(size: nat, position: nat, round: Round, resumed: nat) {
    match round.end
    case Closed => resumed == if position + round.events <= size then position + round.events else size
    case Breaks(failure) => failure == Trouble && resumed == position
  }

  lemma EndIsResumed(size: nat, c: Course, round: Round, later: Round, marks: seq<Mark>, position: nat, resumed: nat)
    requires !c.stopped && !Turned(size, c, round).stopped && position <= size
    requires WatchesFrom(c.held, round, position) && !StoppedMidway(size, position, round)
    requires EndsAt(size, position, round, resumed)
    requires Turned(size, Turned(size, c, round), later).marks <= marks
    ensures |Turned(size, c, round).marks| < |marks| && marks[|Turned(size, c, round).marks|] == Resumed(resumed)
  {
    OtherEndsKeepThePosition(size, c, round, position);
    TurnExtends(size, Turned(size, c, round), later);
  }

  lemma NextCourse(size: nat, stopped: bool, before: seq<Mark>, rounds: seq<Round>, i: nat, next: nat)
    requires i < |rounds| && next == i + 1
    ensures CourseOf(size, stopped, before, rounds, next) == Turned(size, CourseOf(size, stopped, before, rounds, i), rounds[i])
  {
  }

  /**
   After any other end of a watch the next turn opens a watch at once: where this
   one began if it broke, and past what its stream yielded if it was closed.
   */
  lemma OtherEndsAreResumed(
    size: nat, stopped: bool, before: seq<Mark>, rounds: seq<Round>, i: nat, next: nat, n: nat, position: nat, resumed: nat)
    requires next == i + 1 && next < n <= |rounds| && position <= size
    requires !CourseOf(size, stopped, before, rounds, i).stopped && !CourseOf(size, stopped, before, rounds, next).stopped
    requires WatchesFrom(CourseOf(size, stopped, before, rounds, i).held, rounds[i], position)
    requires !StoppedMidway(size, position, rounds[i]) && EndsAt(size, position, rounds[i], resumed)
    ensures var ended, end := CourseOf(size, stopped, before, rounds, next), CourseOf(size, stopped, before, rounds, n);
      |ended.marks| < |end.marks| && end.marks[|ended.marks|] == Resumed(resumed)
  {
    var after := next + 1;
    NextCourse(size, stopped, before, rounds, i, next);
    NextCourse(size, stopped, before, rounds, next, after);
    MarksStay(size, stopped, before, rounds, after, n);
    EndIsResumed(size, CourseOf(size, stopped, before, rounds, i), rounds[i], rounds[next],
                 CourseOf(size, stopped, before, rounds, n).marks, position, resumed);
  }
}
