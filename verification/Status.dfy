/**
 The `.status` subresource: what one outcome writes, and what a history of
 outcomes leaves behind.
 */
module Status {
  import opened Wrappers

  datatype Phase = Pending | Published | Error

  datatype Reason =
    | CertificatePublished | AwaitingIssuance | SigningRequestPending | SigningRequestFailed
    | SigningRequestNotSigned | SigningCooldown | UnusableCertificate | Misconfigured | ReconcileError
    | ForeignReason(text: string)

  datatype Truth = True | False | Unknown

  /** An entry of `.status.conditions`; other controllers may own entries too. Times are whole seconds. */
  datatype Condition = Condition(
    kind: string, state: Truth, reason: Reason, message: string,
    lastTransitionTime: Option<int>, observedGeneration: Option<int>)

  /** The dictionary the apiserver stores; None is an absent key. */
  datatype Status = Status(
    phase: Option<Phase>, message: Option<string>, reason: Option<Reason>, lastReconcileTime: Option<int>,
    observedGeneration: Option<int>, conditions: Option<seq<Condition>>, publishedFingerprint: Option<string>,
    lastPublishedTime: Option<int>, pendingRequestName: Option<string>, lastSigningTime: Option<int>,
    nextRetryTime: Option<int>)

  const Empty: Status := Status(None, None, None, None, None, None, None, None, None, None, None)

  const READY: string := "Ready"
  const MAX_MESSAGE: nat := 32 * 1024

  // -- Reading a status --------------------------------------------------------

  function ConditionsOf(status: Status): seq<Condition> {
    if status.conditions.Some? then status.conditions.value else []
  }

  /** An empty string is as good as an absent one, as it is to Python's `if`. */
  function NonEmpty(name: Option<string>): Option<string> {
    if name == Some("") then None else name
  }

  function PendingOf(status: Status): Option<string> { NonEmpty(status.pendingRequestName) }

  function PublishedOf(status: Status): Option<string> { NonEmpty(status.publishedFingerprint) }

  /** Whether any stored `Ready` condition is True. */
  predicate IsReady(status: Status) {
    exists c | c in ConditionsOf(status) :: c.kind == READY && c.state == True
  }

  // -- What an outcome writes --------------------------------------------------

  /** What a patch says about a field: nothing, null, or a value. */
  datatype Update<+T> = Keep | Null | Set(value: T)

  /** The arguments of one `set_status` call; `Keep` is the source's `_UNSET`. */
  datatype Write = Write(
    phase: Phase, message: string, reason: Option<Reason>, publishedFingerprint: Option<string>,
    markPublished: bool, pendingRequest: Update<string>, markSigning: bool, nextRetry: Option<int>, ready: Option<bool>)

  /** A call that gives only a phase, a message and a reason. */
  function Plain(phase: Phase, message: string, reason: Option<Reason>): Write {
    Write(phase, message, reason, None, false, Keep, false, None, None)
  }

  /** The dictionary `set_status` sends. */
  datatype Patch = Patch(
    phase: Update<Phase>, message: Update<string>, reason: Update<Reason>, lastReconcileTime: Update<int>,
    observedGeneration: Update<int>, conditions: Update<seq<Condition>>, publishedFingerprint: Update<string>,
    lastPublishedTime: Update<int>, pendingRequestName: Update<string>, lastSigningTime: Update<int>,
    nextRetryTime: Update<int>)

  function DefaultReason(phase: Phase): Reason {
    match phase
    case Published => CertificatePublished
    case Pending => AwaitingIssuance
    case Error => ReconcileError
  }

  function ReasonWritten(w: Write): Reason {
    if w.reason.Some? then w.reason.value else DefaultReason(w.phase)
  }

  function ReadyWritten(w: Write): bool {
    if w.ready.Some? then w.ready.value else w.phase == Published
  }

  function Truncate(message: string): string {
    if |message| <= MAX_MESSAGE then message else message[..MAX_MESSAGE]
  }

  function FirstReady(conditions: seq<Condition>): Option<Condition> {
    if conditions == [] then None
    else if conditions[0].kind == READY then Some(conditions[0])
    else FirstReady(conditions[1..])
  }

  /** The entries this operator does not own, in order. */
  function ForeignConditions(conditions: seq<Condition>): seq<Condition> {
    if conditions == [] then []
    else if conditions[0].kind == READY then ForeignConditions(conditions[1..])
    else [conditions[0]] + ForeignConditions(conditions[1..])
  }

  function TruthOf(ready: bool): Truth { if ready then True else False }

  /** The Ready condition of this outcome; its transition time is carried over while the answer is unchanged. */
  function ReadyCondition(status: Status, generation: Option<int>, w: Write, at: int): Condition {
    var state := TruthOf(ReadyWritten(w));
    var existing := FirstReady(ConditionsOf(status));
    var transitioned :=
      if existing.Some? && existing.value.state == state && existing.value.lastTransitionTime.Some?
      then existing.value.lastTransitionTime.value else at;
    Condition(READY, state, ReasonWritten(w), Truncate(w.message), Some(transitioned), generation)
  }

  function OrNull<T>(value: Option<T>): Update<T> {
    if value.Some? then Set(value.value) else Null
  }

  function OrKeep<T>(value: Option<T>): Update<T> {
    if value.Some? then Set(value.value) else Keep
  }

  /** The patch of a `set_status` call running at second `at`. */
  function PatchOf(status: Status, generation: Option<int>, w: Write, at: int): Patch {
    Patch(Set(w.phase), Set(Truncate(w.message)), Set(ReasonWritten(w)), Set(at), OrNull(generation),
          Set(ForeignConditions(ConditionsOf(status)) + [ReadyCondition(status, generation, w, at)]),
          OrKeep(w.publishedFingerprint), if w.markPublished then Set(at) else Keep, w.pendingRequest,
          if w.markSigning then Set(at) else Keep, OrNull(w.nextRetry))
  }

  function Apply<T>(before: Option<T>, update: Update<T>): Option<T> {
    match update
    case Keep => before
    case Null => None
    case Set(v) => Some(v)
  }

  /** The patched status, field by field; `MergeIsMergePatch` says this is the merge of RFC 7396. */
  function Merge(s: Status, p: Patch): Status {
    Status(Apply(s.phase, p.phase), Apply(s.message, p.message), Apply(s.reason, p.reason),
           Apply(s.lastReconcileTime, p.lastReconcileTime), Apply(s.observedGeneration, p.observedGeneration),
           Apply(s.conditions, p.conditions), Apply(s.publishedFingerprint, p.publishedFingerprint),
           Apply(s.lastPublishedTime, p.lastPublishedTime), Apply(s.pendingRequestName, p.pendingRequestName),
           Apply(s.lastSigningTime, p.lastSigningTime), Apply(s.nextRetryTime, p.nextRetryTime))
  }

  /** The status after a write that took effect. */
  function Written(status: Status, generation: Option<int>, w: Write, at: int): Status {
    Merge(status, PatchOf(status, generation, w, at))
  }

  /** Builds the patch one member at a time, the way `set_status` does. */
  method BuildPatch(status: Status, generation: Option<int>, w: Write, at: int) returns (patch: Patch)
    ensures patch == PatchOf(status, generation, w, at)
  {
    var condition := ReadyCondition(status, generation, w, at);
    patch := Patch(
      Set(w.phase), Set(Truncate(w.message)), Set(ReasonWritten(w)), Set(at), OrNull(generation),
      Set(ForeignConditions(ConditionsOf(status)) + [condition]), Keep, Keep, Keep, Keep, Keep);
    if w.publishedFingerprint.Some? {
      patch := patch.(publishedFingerprint := Set(w.publishedFingerprint.value));
    }
    if w.markPublished {
      patch := patch.(lastPublishedTime := Set(at));
    }
    if w.pendingRequest != Keep {
      patch := patch.(pendingRequestName := w.pendingRequest);
    }
    if w.markSigning {
      patch := patch.(lastSigningTime := Set(at));
    }
    patch := patch.(nextRetryTime := OrNull(w.nextRetry));
  }

  // -- The same dictionaries by key ------------------------------------------------

  datatype Key =
    | PhaseKey | MessageKey | ReasonKey | LastReconcileTimeKey | ObservedGenerationKey | ConditionsKey
    | PublishedFingerprintKey | LastPublishedTimeKey | PendingRequestNameKey | LastSigningTimeKey | NextRetryTimeKey

  /** A JSON value of a status dictionary. None of its members is an object. */
  datatype Json =
    | JsonNull
    | OfPhase(phase: Phase)
    | OfReason(reason: Reason)
    | Text(text: string)
    | Number(number: int)
    | ConditionList(conditions: seq<Condition>)

  function Stored<T>(value: Option<T>, wrap: T -> Json): Option<Json> {
    if value.Some? then Some(wrap(value.value)) else None
  }

  function Sent<T>(update: Update<T>, wrap: T -> Json): Option<Json> {
    match update
    case Keep => None
    case Null => Some(JsonNull)
    case Set(v) => Some(wrap(v))
  }

  function StatusMember(s: Status, key: Key): Option<Json> {
    match key
    case PhaseKey => Stored(s.phase, v => OfPhase(v))
    case MessageKey => Stored(s.message, v => Text(v))
    case ReasonKey => Stored(s.reason, v => OfReason(v))
    case LastReconcileTimeKey => Stored(s.lastReconcileTime, v => Number(v))
    case ObservedGenerationKey => Stored(s.observedGeneration, v => Number(v))
    case ConditionsKey => Stored(s.conditions, v => ConditionList(v))
    case PublishedFingerprintKey => Stored(s.publishedFingerprint, v => Text(v))
    case LastPublishedTimeKey => Stored(s.lastPublishedTime, v => Number(v))
    case PendingRequestNameKey => Stored(s.pendingRequestName, v => Text(v))
    case LastSigningTimeKey => Stored(s.lastSigningTime, v => Number(v))
    case NextRetryTimeKey => Stored(s.nextRetryTime, v => Number(v))
  }

  function PatchMember(p: Patch, key: Key): Option<Json> {
    match key
    case PhaseKey => Sent(p.phase, v => OfPhase(v))
    case MessageKey => Sent(p.message, v => Text(v))
    case ReasonKey => Sent(p.reason, v => OfReason(v))
    case LastReconcileTimeKey => Sent(p.lastReconcileTime, v => Number(v))
    case ObservedGenerationKey => Sent(p.observedGeneration, v => Number(v))
    case ConditionsKey => Sent(p.conditions, v => ConditionList(v))
    case PublishedFingerprintKey => Sent(p.publishedFingerprint, v => Text(v))
    case LastPublishedTimeKey => Sent(p.lastPublishedTime, v => Number(v))
    case PendingRequestNameKey => Sent(p.pendingRequestName, v => Text(v))
    case LastSigningTimeKey => Sent(p.lastSigningTime, v => Number(v))
    case NextRetryTimeKey => Sent(p.nextRetryTime, v => Number(v))
  }

  function StatusDict(s: Status): map<Key, Json> {
    map key: Key | StatusMember(s, key).Some? :: StatusMember(s, key).value
  }

  function PatchDict(p: Patch): map<Key, Json> {
    map key: Key | PatchMember(p, key).Some? :: PatchMember(p, key).value
  }

  /** Section 2 of RFC 7396, for a patch none of whose members is an object. */
  function MergePatch(target: map<Key, Json>, patch: map<Key, Json>): map<Key, Json> {
    map key | key in target.Keys + patch.Keys && !(key in patch && patch[key] == JsonNull)
      :: if key in patch then patch[key] else target[key]
  }

  /** The loop that keeps the in-memory copy in step: a null drops its key, anything else replaces it. */
  method MergeInto(previous: map<Key, Json>, patch: map<Key, Json>) returns (merged: map<Key, Json>)
    ensures merged == MergePatch(previous, patch)
  {
    merged := previous;
    var todo := patch.Keys;
    while todo != {}
      invariant todo <= patch.Keys
      invariant forall key :: key in merged <==>
                  if key in patch && key !in todo then patch[key] != JsonNull else key in previous
      invariant forall key | key in merged ::
                  merged[key] == if key in patch && key !in todo then patch[key] else previous[key]
    {
      var key :| key in todo;
      if patch[key] == JsonNull {
        merged := merged - {key};
      } else {
        merged := merged[key := patch[key]];
      }
      todo := todo - {key};
    }
  }

  /** Merging records is merging the dictionaries they stand for. */
  lemma MergeIsMergePatch(s: Status, p: Patch)
    ensures StatusDict(Merge(s, p)) == MergePatch(StatusDict(s), PatchDict(p))
  {
    forall key: Key
      ensures StatusMember(Merge(s, p), key) ==
              match PatchMember(p, key)
              case None => StatusMember(s, key)
              case Some(v) => if v == JsonNull then None else Some(v)
    {
      match key {
        case PhaseKey => case MessageKey => case ReasonKey => case LastReconcileTimeKey =>
        case ObservedGenerationKey => case ConditionsKey => case PublishedFingerprintKey =>
        case LastPublishedTimeKey => case PendingRequestNameKey => case LastSigningTimeKey =>
        case NextRetryTimeKey =>
      }
    }
    var merged := MergePatch(StatusDict(s), PatchDict(p));
    assert StatusDict(Merge(s, p)).Keys == merged.Keys;
  }

  // -- What one write leaves --------------------------------------------------------

  lemma {:induction false} ForeignHaveNoReady(conditions: seq<Condition>)
    ensures forall c | c in ForeignConditions(conditions) :: c.kind != READY && c in conditions
  {
    if conditions != [] {
      ForeignHaveNoReady(conditions[1..]);
    }
  }

  lemma {:induction false} ForeignOfWritten(foreign: seq<Condition>, ready: Condition)
    requires ready.kind == READY
    requires forall c | c in foreign :: c.kind != READY
    ensures ForeignConditions(foreign + [ready]) == foreign
    ensures FirstReady(foreign + [ready]) == Some(ready)
  {
    var all := foreign + [ready];
    if foreign == [] {
      assert all[1..] == [];
    } else {
      assert all[1..] == foreign[1..] + [ready];
      assert foreign == [foreign[0]] + foreign[1..];
      ForeignOfWritten(foreign[1..], ready);
    }
  }

  /** Entry `j` of `kept` is the one at this place of `all`, and not the operator's own. */
  predicate IsKept(kept: seq<Condition>, all: seq<Condition>, place: nat, j: nat)
    requires j < |kept|
  {
    place < |all| && all[place].kind != READY && kept[j] == all[place]
  }

  /** Entry `i` is the operator's own, or its place is listed. */
  predicate IsListed(all: seq<Condition>, at: seq<nat>, i: nat)
    requires i < |all|
  {
    all[i].kind != READY ==> i in at
  }

  /** `at` lists, in increasing order, the places of the entries this operator does not own, and `kept` is those entries. */
  ghost predicate KeptAt(kept: seq<Condition>, all: seq<Condition>, at: seq<nat>) {
    && |at| == |kept|
    && (forall j: nat | j < |at| :: IsKept(kept, all, at[j], j))
    && (forall i: nat, j: nat | i < j < |at| :: at[i] < at[j])
    && (forall i: nat | i < |all| :: IsListed(all, at, i))
  }

  /** `kept` is what is left of `all`, in order, without the entries this operator owns. */
  ghost predicate AreTheForeign(kept: seq<Condition>, all: seq<Condition>) {
    exists at :: KeptAt(kept, all, at)
  }

  lemma KeptHaveNoReady(kept: seq<Condition>, all: seq<Condition>)
    requires AreTheForeign(kept, all)
    ensures forall c | c in kept :: c.kind != READY
  {
    var at :| KeptAt(kept, all, at);
    forall j: nat | j < |kept| ensures kept[j].kind != READY {
      assert IsKept(kept, all, at[j], j);
    }
  }

  /** The same places, one further on. */
  function Shifted(at: seq<nat>): (r: seq<nat>)
    ensures |r| == |at| && forall j | 0 <= j < |at| :: r[j] == at[j] + 1
  {
    seq(|at|, j requires 0 <= j < |at| => at[j] + 1)
  }

  lemma ShiftedHas(at: seq<nat>, i: nat, next: nat)
    requires i in at && next == i + 1
    ensures next in Shifted(at)
  {
    var j :| 0 <= j < |at| && at[j] == i;
    assert Shifted(at)[j] == next;
  }

  lemma ShiftedIsListed(first: Condition, rest: seq<Condition>, at: seq<nat>, i: nat, next: nat)
    requires i < |rest| && next == i + 1 && IsListed(rest, at, i)
    ensures IsListed([first] + rest, Shifted(at), next)
  {
    if rest[i].kind != READY { ShiftedHas(at, i, next); }
  }

  /** One more entry at the front, which is left out. */
  lemma FirstIsOurs(kept: seq<Condition>, first: Condition, rest: seq<Condition>, at: seq<nat>)
    requires first.kind == READY && KeptAt(kept, rest, at)
    ensures KeptAt(kept, [first] + rest, Shifted(at))
  {
    var all, places := [first] + rest, Shifted(at);
    forall j: nat | j < |places| ensures IsKept(kept, all, places[j], j) {
      assert IsKept(kept, rest, at[j], j);
    }
    forall i: nat | i < |all| ensures IsListed(all, places, i) {
      if i > 0 { ShiftedIsListed(first, rest, at, i - 1, i); }
    }
  }

  /** One more entry at the front, which is kept. */
  lemma FirstIsForeign(kept: seq<Condition>, first: Condition, rest: seq<Condition>, at: seq<nat>)
    requires first.kind != READY && KeptAt(kept, rest, at)
    ensures KeptAt([first] + kept, [first] + rest, [0] + Shifted(at))
  {
    var more, all, shifted := [first] + kept, [first] + rest, Shifted(at);
    var places := [0] + shifted;
    forall j: nat | j < |places| ensures IsKept(more, all, places[j], j) {
      if j > 0 {
        assert places[j] == shifted[j - 1];
        assert IsKept(kept, rest, at[j - 1], j - 1);
      }
    }
    forall i: nat, j: nat | i < j < |places| ensures places[i] < places[j] {
      assert places[j] == shifted[j - 1];
      if i > 0 { assert places[i] == shifted[i - 1]; }
    }
    forall i: nat | i < |all| ensures IsListed(all, places, i) {
      if i > 0 { ShiftedIsListed(first, rest, at, i - 1, i); }
    }
  }

  /** The comprehension of `_conditions` keeps exactly the entries this operator does not own, where they were. */
  lemma {:induction false} ForeignAreKept(conditions: seq<Condition>)
    ensures AreTheForeign(ForeignConditions(conditions), conditions)
  {
    if conditions == [] {
      assert KeptAt([], conditions, []);
    } else {
      ForeignAreKept(conditions[1..]);
      var at :| KeptAt(ForeignConditions(conditions[1..]), conditions[1..], at);
      assert conditions == [conditions[0]] + conditions[1..];
      if conditions[0].kind == READY {
        FirstIsOurs(ForeignConditions(conditions[1..]), conditions[0], conditions[1..], at);
      } else {
        FirstIsForeign(ForeignConditions(conditions[1..]), conditions[0], conditions[1..], at);
      }
    }
  }

  lemma WrittenConditions(status: Status, generation: Option<int>, w: Write, at: int)
    ensures var conditions := ConditionsOf(Written(status, generation, w, at));
      && conditions == ForeignConditions(ConditionsOf(status)) + [ReadyCondition(status, generation, w, at)]
      && FirstReady(conditions) == Some(ReadyCondition(status, generation, w, at))
      && ForeignConditions(conditions) == ForeignConditions(ConditionsOf(status))
      && (IsReady(Written(status, generation, w, at)) <==> ReadyWritten(w))
  {
    var foreign := ForeignConditions(ConditionsOf(status));
    var ready := ReadyCondition(status, generation, w, at);
    ForeignHaveNoReady(ConditionsOf(status));
    ForeignOfWritten(foreign, ready);
    assert ready in ConditionsOf(Written(status, generation, w, at));
  }

  /** Entry `i` is the first that this operator owns. */
  ghost predicate IsFirstReady(conditions: seq<Condition>, i: nat) {
    i < |conditions| && conditions[i].kind == "Ready" && forall j | 0 <= j < i :: conditions[j].kind != "Ready"
  }

  lemma {:induction false} FirstReadyIsFirst(conditions: seq<Condition>, i: nat)
    ensures IsFirstReady(conditions, i) ==> FirstReady(conditions) == Some(conditions[i])
    ensures (forall c | c in conditions :: c.kind != "Ready") ==> FirstReady(conditions).None?
    decreases |conditions|
  {
    if conditions != [] {
      assert conditions[0] in conditions;
      assert forall c | c in conditions[1..] :: c in conditions;
      if i > 0 && IsFirstReady(conditions, i) {
        var rest, before := conditions[1..], i - 1;
        assert rest[before] == conditions[i];
        assert forall j | 0 <= j < before :: rest[j] == conditions[j + 1];
        assert IsFirstReady(rest, before);
        FirstReadyIsFirst(rest, before);
      } else {
        FirstReadyIsFirst(conditions[1..], 0);
      }
    }
  }

  /** Whether a call tells that the publication is ready: as it says, or else as its phase does. */
  predicate TellsReady(w: Write) { w.ready == Some(true) || (w.ready.None? && w.phase == Published) }

  /** The Ready entry a call leaves: its answer, its reason, its generation, and since when. */
  ghost predicate TellsOutcome(entry: Condition, earlier: seq<Condition>, generation: Option<int>, w: Write, at: int) {
    && entry.kind == "Ready" && entry.state == (if TellsReady(w) then True else False)
    && entry.reason == (match w.reason
                        case Some(reason) => reason
                        case None => match w.phase
                          case Published => CertificatePublished
                          case Pending => AwaitingIssuance
                          case Error => ReconcileError)
    && entry.observedGeneration == generation && entry.message <= w.message && |entry.message| <= 32768
    && (|w.message| <= 32768 ==> entry.message == w.message)
    && (forall i: nat | IsFirstReady(earlier, i) ::
          entry.lastTransitionTime ==
          if earlier[i].state == entry.state && earlier[i].lastTransitionTime.Some?
          then earlier[i].lastTransitionTime else Some(at))
    && ((forall c | c in earlier :: c.kind != "Ready") ==> entry.lastTransitionTime == Some(at))
  }

  /**
   The conditions after a write: exactly the entries this operator does not own,
   in the order they had, and then one Ready entry with this outcome, which goes
   on since when the first one did as long as the answer is the same.
   */
  lemma ConditionsAfter(status: Status, generation: Option<int>, w: Write, at: int)
    ensures var before, after := ConditionsOf(status), ConditionsOf(Written(status, generation, w, at));
      && after != []
      && AreTheForeign(after[..|after| - 1], before)
      && TellsOutcome(after[|after| - 1], before, generation, w, at)
      && (IsReady(Written(status, generation, w, at)) <==> TellsReady(w))
  {
    var before := ConditionsOf(status);
    var foreign, ready := ForeignConditions(before), ReadyCondition(status, generation, w, at);
    WrittenConditions(status, generation, w, at);
    ForeignAreKept(before);
    assert (foreign + [ready])[..|foreign|] == foreign;
    forall i: nat | IsFirstReady(before, i) ensures FirstReady(before) == Some(before[i]) {
      FirstReadyIsFirst(before, i);
    }
    FirstReadyIsFirst(before, 0);
  }

  // -- Histories ----------------------------------------------------------------------

  /** One `set_status` call: the generation it read, its arguments and its second. */
  datatype Call = Call(generation: Option<int>, w: Write, at: int)

  /** How its patch fares. A patch whose reply is lost is stored, but raises like one that was not. */
  datatype Fate = Landed | NotStored | ReplyLost

  /** A publication is read anew as each pass begins. */
  datatype Happening = Called(call: Call, fate: Fate) | Reread

  datatype Announcement = Announcement(warning: bool, reason: Reason, message: string)

  /** What the apiserver stores, the pass's own copy, and the Events announced so far. */
  datatype Ledger = Ledger(stored: Status, memory: Status, announced: seq<Announcement>)

  predicate Changes(previous: Status, w: Write) {
    (previous.phase, previous.reason) != (Some(w.phase), Some(ReasonWritten(w)))
  }

  function Transition(previous: Status, w: Write): seq<Announcement> {
    if Changes(previous, w) then [Announcement(w.phase == Error, ReasonWritten(w), Truncate(w.message))] else []
  }

  function PatchOfCall(memory: Status, c: Call): Patch { PatchOf(memory, c.generation, c.w, c.at) }

  /** One call: a patch that is not stored, or not known to be, changes nothing in memory and announces nothing. */
  function SetStatus(l: Ledger, c: Call, fate: Fate): Ledger {
    var patch := PatchOfCall(l.memory, c);
    match fate
    case Landed => Ledger(Merge(l.stored, patch), Merge(l.memory, patch), l.announced + Transition(l.memory, c.w))
    case NotStored => l
    case ReplyLost => l.(stored := Merge(l.stored, patch))
  }

  function Next(l: Ledger, h: Happening): Ledger {
    match h
    case Called(c, fate) => SetStatus(l, c, fate)
    case Reread => l.(memory := l.stored)
  }

  function After(l: Ledger, history: seq<Happening>): Ledger {
    if history == [] then l else Next(After(l, history[..|history| - 1]), history[|history| - 1])
  }

  // -- What the store has that the copy has not ---------------------------------------------

  const Nothing: Patch := Patch(Keep, Keep, Keep, Keep, Keep, Keep, Keep, Keep, Keep, Keep, Keep)

  function Later<T>(earlier: Update<T>, later: Update<T>): Update<T> {
    if later.Keep? then earlier else later
  }

  function Unless<T>(update: Update<T>, written: Update<T>): Update<T> {
    if written.Keep? then update else Keep
  }

  /** One patch and then another. */
  function Over(a: Patch, b: Patch): Patch {
    Patch(Later(a.phase, b.phase), Later(a.message, b.message), Later(a.reason, b.reason),
          Later(a.lastReconcileTime, b.lastReconcileTime), Later(a.observedGeneration, b.observedGeneration),
          Later(a.conditions, b.conditions), Later(a.publishedFingerprint, b.publishedFingerprint),
          Later(a.lastPublishedTime, b.lastPublishedTime), Later(a.pendingRequestName, b.pendingRequestName),
          Later(a.lastSigningTime, b.lastSigningTime), Later(a.nextRetryTime, b.nextRetryTime))
  }

  /** What is left of a patch once another has overwritten its fields. */
  function Without(a: Patch, b: Patch): Patch {
    Patch(Unless(a.phase, b.phase), Unless(a.message, b.message), Unless(a.reason, b.reason),
          Unless(a.lastReconcileTime, b.lastReconcileTime), Unless(a.observedGeneration, b.observedGeneration),
          Unless(a.conditions, b.conditions), Unless(a.publishedFingerprint, b.publishedFingerprint),
          Unless(a.lastPublishedTime, b.lastPublishedTime), Unless(a.pendingRequestName, b.pendingRequestName),
          Unless(a.lastSigningTime, b.lastSigningTime), Unless(a.nextRetryTime, b.nextRetryTime))
  }

  /** The fields, and their values, whose last write since the copy was read had its reply lost. */
  function Unheard(l: Ledger, history: seq<Happening>): Patch {
    if history == [] then Nothing
    else
      var before, gap := After(l, history[..|history| - 1]), Unheard(l, history[..|history| - 1]);
      match history[|history| - 1]
      case Called(c, Landed) => Without(gap, PatchOfCall(before.memory, c))
      case Called(c, NotStored) => gap
      case Called(c, ReplyLost) => Over(gap, PatchOfCall(before.memory, c))
      case Reread => Nothing
  }

  lemma MergeNothing(s: Status)
    ensures Merge(s, Nothing) == s
  {
  }

  lemma MergeOver(s: Status, a: Patch, b: Patch)
    ensures Merge(Merge(s, a), b) == Merge(s, Over(a, b))
  {
  }

  lemma MergeWithout(s: Status, a: Patch, b: Patch)
    ensures Merge(Merge(s, a), b) == Merge(Merge(s, b), Without(a, b))
  {
  }

  /** Over any history, what is stored is the copy with the unheard writes merged in. */
  lemma {:induction false} StoreIsMemoryAndUnheard(l: Ledger, history: seq<Happening>)
    requires l.memory == l.stored
    ensures var end := After(l, history); end.stored == Merge(end.memory, Unheard(l, history))
  {
    if history == [] {
      MergeNothing(l.memory);
    } else {
      var before, last := history[..|history| - 1], history[|history| - 1];
      StoreIsMemoryAndUnheard(l, before);
      var memory, gap := After(l, before).memory, Unheard(l, before);
      match last {
        case Called(c, Landed) => MergeWithout(memory, gap, PatchOfCall(memory, c));
        case Called(c, NotStored) =>
        case Called(c, ReplyLost) => MergeOver(memory, gap, PatchOfCall(memory, c));
        case Reread => MergeNothing(After(l, before).stored);
      }
    }
  }

  predicate Agrees<T(==)>(value: Option<T>, unheard: Update<T>) {
    match unheard
    case Keep => true
    case Null => value.None?
    case Set(v) => value == Some(v)
  }

  /** Every unheard write wrote what the copy has anyway. */
  predicate NothingNew(memory: Status, unheard: Patch) {
    && Agrees(memory.phase, unheard.phase) && Agrees(memory.message, unheard.message)
    && Agrees(memory.reason, unheard.reason) && Agrees(memory.lastReconcileTime, unheard.lastReconcileTime)
    && Agrees(memory.observedGeneration, unheard.observedGeneration) && Agrees(memory.conditions, unheard.conditions)
    && Agrees(memory.publishedFingerprint, unheard.publishedFingerprint)
    && Agrees(memory.lastPublishedTime, unheard.lastPublishedTime)
    && Agrees(memory.pendingRequestName, unheard.pendingRequestName)
    && Agrees(memory.lastSigningTime, unheard.lastSigningTime) && Agrees(memory.nextRetryTime, unheard.nextRetryTime)
  }

  lemma MergeChangesNothing(s: Status, p: Patch)
    ensures Merge(s, p) == s <==> NothingNew(s, p)
  {
  }

  /** The copy is what is stored exactly when no unheard write wrote anything the copy does not have. */
  lemma MemoryIsStoredExactly(l: Ledger, history: seq<Happening>)
    requires l.memory == l.stored
    ensures var end := After(l, history); end.memory == end.stored <==> NothingNew(end.memory, Unheard(l, history))
  {
    StoreIsMemoryAndUnheard(l, history);
    MergeChangesNothing(After(l, history).memory, Unheard(l, history));
  }

  ghost predicate NoReplyLost(history: seq<Happening>) {
    forall h | h in history && h.Called? :: !h.fate.ReplyLost?
  }

  lemma {:induction false} NothingUnheard(l: Ledger, history: seq<Happening>)
    requires NoReplyLost(history)
    ensures Unheard(l, history) == Nothing
  {
    if history != [] {
      assert history[|history| - 1] in history;
      NothingUnheard(l, history[..|history| - 1]);
    }
  }

  /** While no reply is lost, whatever lands and whatever is not, the copy is what is stored. */
  lemma MemoryIsStored(l: Ledger, history: seq<Happening>)
    requires l.memory == l.stored && NoReplyLost(history)
    ensures var end := After(l, history); end.memory == end.stored
  {
    NothingUnheard(l, history);
    StoreIsMemoryAndUnheard(l, history);
    MergeNothing(After(l, history).memory);
  }

  /**
   What writes whose replies were lost have put into the store and nothing has
   put into the copy since: the members every call writes, and those only some do.
   */
  datatype Owed = Owed(base: bool, fingerprint: bool, published: bool, pending: bool, signing: bool)

  const NOTHING_OWED: Owed := Owed(false, false, false, false, false)

  /** The members a call writes. */
  function WrittenBy(w: Write): Owed {
    Owed(true, w.publishedFingerprint.Some?, w.markPublished, !w.pendingRequest.Keep?, w.markSigning)
  }

  function With(a: Owed, b: Owed): Owed {
    Owed(a.base || b.base, a.fingerprint || b.fingerprint, a.published || b.published, a.pending || b.pending,
         a.signing || b.signing)
  }

  function Less(a: Owed, b: Owed): Owed {
    Owed(a.base && !b.base, a.fingerprint && !b.fingerprint, a.published && !b.published, a.pending && !b.pending,
         a.signing && !b.signing)
  }

  function OwedAfter(history: seq<Happening>): Owed {
    if history == [] then NOTHING_OWED
    else
      var before := OwedAfter(history[..|history| - 1]);
      match history[|history| - 1]
      case Called(c, Landed) => Less(before, WrittenBy(c.w))
      case Called(_, NotStored) => before
      case Called(c, ReplyLost) => With(before, WrittenBy(c.w))
      case Reread => NOTHING_OWED
  }

  /** These are the members a patch writes. */
  predicate Covers(owed: Owed, p: Patch) {
    && (!p.phase.Keep? <==> owed.base) && (!p.message.Keep? <==> owed.base) && (!p.reason.Keep? <==> owed.base)
    && (!p.lastReconcileTime.Keep? <==> owed.base) && (!p.observedGeneration.Keep? <==> owed.base)
    && (!p.conditions.Keep? <==> owed.base) && (!p.nextRetryTime.Keep? <==> owed.base)
    && (!p.publishedFingerprint.Keep? <==> owed.fingerprint) && (!p.lastPublishedTime.Keep? <==> owed.published)
    && (!p.pendingRequestName.Keep? <==> owed.pending) && (!p.lastSigningTime.Keep? <==> owed.signing)
  }

  lemma CallCovers(memory: Status, c: Call)
    ensures Covers(WrittenBy(c.w), PatchOfCall(memory, c))
  {
  }

  lemma OverCovers(a: Owed, p: Patch, b: Owed, r: Patch)
    requires Covers(a, p) && Covers(b, r)
    ensures Covers(With(a, b), Over(p, r))
  {
  }

  lemma WithoutCovers(a: Owed, p: Patch, b: Owed, r: Patch)
    requires Covers(a, p) && Covers(b, r)
    ensures Covers(Less(a, b), Without(p, r))
  {
  }

  /** The members of the unheard writes follow from the history alone. */
  lemma {:induction false} OwedIsUnheard(l: Ledger, history: seq<Happening>)
    ensures Covers(OwedAfter(history), Unheard(l, history))
  {
    if history != [] {
      var before, last := history[..|history| - 1], history[|history| - 1];
      OwedIsUnheard(l, before);
      if last.Called? {
        var memory := After(l, before).memory;
        CallCovers(memory, last.call);
        OverCovers(OwedAfter(before), Unheard(l, before), WrittenBy(last.call.w), PatchOfCall(memory, last.call));
        WithoutCovers(OwedAfter(before), Unheard(l, before), WrittenBy(last.call.w), PatchOfCall(memory, last.call));
      }
    }
  }

  /**
   A lost reply costs the copy nothing once every member its call wrote has been
   written by a call that was acknowledged, or the publication has been reread.
   */
  lemma MakingUpRestoresMemory(l: Ledger, history: seq<Happening>)
    requires l.memory == l.stored && OwedAfter(history) == NOTHING_OWED
    ensures var end := After(l, history); end.memory == end.stored
  {
    OwedIsUnheard(l, history);
    StoreIsMemoryAndUnheard(l, history);
    MergeNothing(After(l, history).memory);
  }

  /** One failure recorded on a publication without a status, its reply lost: the copy does not know of it. */
  lemma LostReplyIsForgotten()
    ensures var end := After(Ledger(Empty, Empty, []), [Called(Call(Some(1), Plain(Error, "", None), 0), ReplyLost)]);
      end.memory == Empty && end.stored.phase == Some(Error) && end.memory != end.stored
  {
    var history := [Called(Call(Some(1), Plain(Error, "", None), 0), ReplyLost)];
    assert history[..0] == [];
  }

  // -- The members a history leaves ------------------------------------------------------------

  /** The calls that took effect, whether or not their replies arrived. */
  function Effective(history: seq<Happening>): seq<Call> {
    if history == [] then []
    else
      var before := Effective(history[..|history| - 1]);
      match history[|history| - 1]
      case Called(c, Landed) => before + [c]
      case Called(c, ReplyLost) => before + [c]
      case _ => before
  }

  /** The `k`-th call is the last of those with the given property. */
  predicate IsLastOf(calls: seq<Call>, has: Call -> bool, k: nat) {
    k < |calls| && has(calls[k]) && forall j | k < j < |calls| :: !has(calls[j])
  }

  predicate NoneHas(calls: seq<Call>, has: Call -> bool) {
    forall j | 0 <= j < |calls| :: !has(calls[j])
  }

  /** A member that only calls with the given property write is what the last of them wrote, or what it was. */
  ghost predicate LastWrites<T>(calls: seq<Call>, has: Call -> bool, value: Call -> T, first: T, end: T) {
    && (forall k: nat | IsLastOf(calls, has, k) :: end == value(calls[k]))
    && (NoneHas(calls, has) ==> end == first)
  }

  lemma OneMoreWrites<T>(calls: seq<Call>, has: Call -> bool, value: Call -> T, first: T, before: T, c: Call, end: T)
    requires LastWrites(calls, has, value, first, before)
    requires end == if has(c) then value(c) else before
    ensures LastWrites(calls + [c], has, value, first, end)
  {
    var longer := calls + [c];
    assert longer[|calls|] == c && forall j | 0 <= j < |calls| :: longer[j] == calls[j];
    forall k: nat | IsLastOf(longer, has, k) ensures end == value(longer[k]) {
      if !has(c) {
        assert IsLastOf(calls, has, k);
      }
    }
    if NoneHas(longer, has) {
      assert !has(longer[|calls|]);
      assert NoneHas(calls, has);
    }
  }

  predicate GivesFingerprint(c: Call) { c.w.publishedFingerprint.Some? }
  function FingerprintOf(c: Call): Option<string> { c.w.publishedFingerprint }
  predicate MarksPublished(c: Call) { c.w.markPublished }
  predicate GivesRequest(c: Call) { !c.w.pendingRequest.Keep? }
  function RequestOf(c: Call): Option<string> { if c.w.pendingRequest.Set? then Some(c.w.pendingRequest.value) else None }
  predicate MarksSigning(c: Call) { c.w.markSigning }
  function InstantOf(c: Call): Option<int> { Some(c.at) }

  /** What every call writes is what the last one wrote. */
  ghost predicate EveryCallWrites(first: Status, calls: seq<Call>, s: Status) {
    if calls == [] then
      && s.phase == first.phase && s.message == first.message && s.reason == first.reason
      && s.lastReconcileTime == first.lastReconcileTime && s.observedGeneration == first.observedGeneration
      && s.nextRetryTime == first.nextRetryTime
    else
      var c := calls[|calls| - 1];
      && s.phase == Some(c.w.phase) && s.lastReconcileTime == Some(c.at)
      && s.observedGeneration == c.generation && s.nextRetryTime == c.w.nextRetry
      && s.message == Some(if |c.w.message| > 32768 then c.w.message[..32768] else c.w.message)
      && s.reason == (if c.w.reason.Some? then c.w.reason
                      else Some(match c.w.phase
                                case Published => CertificatePublished
                                case Pending => AwaitingIssuance
                                case Error => ReconcileError))
  }

  /** What only some calls write is what the last of them wrote. */
  ghost predicate SomeCallsWrite(first: Status, calls: seq<Call>, s: Status) {
    && LastWrites(calls, GivesFingerprint, FingerprintOf, first.publishedFingerprint, s.publishedFingerprint)
    && LastWrites(calls, MarksPublished, InstantOf, first.lastPublishedTime, s.lastPublishedTime)
    && LastWrites(calls, GivesRequest, RequestOf, first.pendingRequestName, s.pendingRequestName)
    && LastWrites(calls, MarksSigning, InstantOf, first.lastSigningTime, s.lastSigningTime)
  }

  lemma CallWritesMembers(first: Status, calls: seq<Call>, s: Status, memory: Status, c: Call)
    requires SomeCallsWrite(first, calls, s)
    ensures var t := Merge(s, PatchOfCall(memory, c));
      EveryCallWrites(first, calls + [c], t) && SomeCallsWrite(first, calls + [c], t)
  {
    var t := Merge(s, PatchOfCall(memory, c));
    OneMoreWrites(calls, GivesFingerprint, FingerprintOf, first.publishedFingerprint, s.publishedFingerprint, c,
                  t.publishedFingerprint);
    OneMoreWrites(calls, MarksPublished, InstantOf, first.lastPublishedTime, s.lastPublishedTime, c, t.lastPublishedTime);
    OneMoreWrites(calls, GivesRequest, RequestOf, first.pendingRequestName, s.pendingRequestName, c, t.pendingRequestName);
    OneMoreWrites(calls, MarksSigning, InstantOf, first.lastSigningTime, s.lastSigningTime, c, t.lastSigningTime);
  }

  /**
   Over any history, lost replies and rereads included, every stored member but
   the conditions is what the last call to write it wrote, or what it was at the start.
   */
  lemma {:induction false} MembersAreLastWritten(l: Ledger, history: seq<Happening>)
    ensures var end, calls := After(l, history), Effective(history);
      EveryCallWrites(l.stored, calls, end.stored) && SomeCallsWrite(l.stored, calls, end.stored)
  {
    if history != [] {
      var before, last := history[..|history| - 1], history[|history| - 1];
      MembersAreLastWritten(l, before);
      if last.Called? && !last.fate.NotStored? {
        CallWritesMembers(l.stored, Effective(before), After(l, before).stored, After(l, before).memory, last.call);
      }
    }
  }

  // -- The calls a status tells of -----------------------------------------------------------

  /**
   The calls a status tells of, one after the other. A call writes what follows
   from the copy, so the store then tells of the calls the copy knew and this
   one; calls whose replies were lost in between are forgotten.
   */
  datatype Account = Account(told: seq<Call>, known: seq<Call>)

  function AccountOf(history: seq<Happening>): Account {
    if history == [] then Account([], [])
    else
      var a := AccountOf(history[..|history| - 1]);
      match history[|history| - 1]
      case Called(c, Landed) => Account(a.known + [c], a.known + [c])
      case Called(c, NotStored) => a
      case Called(c, ReplyLost) => a.(told := a.known + [c])
      case Reread => a.(known := a.told)
  }

  /** While no reply is lost, the store and the copy tell of the same calls: those that landed. */
  lemma {:induction false} SameAccount(history: seq<Happening>)
    requires NoReplyLost(history)
    ensures AccountOf(history).told == AccountOf(history).known
  {
    if history != [] {
      assert history[|history| - 1] in history;
      SameAccount(history[..|history| - 1]);
    }
  }

  /** The (phase, reason) pair after these calls. */
  function PairAfter(first: Status, calls: seq<Call>): (Option<Phase>, Option<Reason>) {
    if calls == [] then (first.phase, first.reason)
    else (Some(calls[|calls| - 1].w.phase), Some(ReasonWritten(calls[|calls| - 1].w)))
  }

  /** How many acknowledged calls changed the pair the copy had. */
  function Noticed(first: Status, history: seq<Happening>): nat {
    if history == [] then 0
    else
      var before, last := history[..|history| - 1], history[|history| - 1];
      var known := AccountOf(before).known;
      Noticed(first, before)
      + if last.Called? && last.fate.Landed? && PairAfter(first, known + [last.call]) != PairAfter(first, known) then 1 else 0
  }

  lemma CallIsNoticed(first: Status, known: seq<Call>, l: Ledger, c: Call, fate: Fate)
    requires (l.memory.phase, l.memory.reason) == PairAfter(first, known)
    ensures var end := SetStatus(l, c, fate);
      && (fate.Landed? ==> (end.memory.phase, end.memory.reason) == PairAfter(first, known + [c]))
      && (!fate.NotStored? ==> (end.stored.phase, end.stored.reason) == PairAfter(first, known + [c]))
      && |end.announced| == |l.announced|
         + if fate.Landed? && PairAfter(first, known + [c]) != PairAfter(first, known) then 1 else 0
  {
  }

  /** Events are announced exactly for the acknowledged calls that changed the pair the copy had. */
  lemma {:induction false} EventsCountChanges(l: Ledger, history: seq<Happening>)
    requires l.memory == l.stored
    ensures var end, a := After(l, history), AccountOf(history);
      && (end.stored.phase, end.stored.reason) == PairAfter(l.stored, a.told)
      && (end.memory.phase, end.memory.reason) == PairAfter(l.stored, a.known)
      && |end.announced| == |l.announced| + Noticed(l.stored, history)
  {
    if history != [] {
      var before, last := history[..|history| - 1], history[|history| - 1];
      EventsCountChanges(l, before);
      if last.Called? {
        CallIsNoticed(l.stored, AccountOf(before).known, After(l, before), last.call, last.fate);
      }
    }
  }

  /** The readiness stored after the first `k` calls. */
  function ReadinessAfter(first: Status, calls: seq<Call>, k: nat): Option<Truth>
    requires k <= |calls|
  {
    if k > 0 then Some(if TellsReady(calls[k - 1].w) then True else False)
    else
      var existing := FirstReady(ConditionsOf(first));
      if existing.Some? then Some(existing.value.state) else None
  }

  /** The `k`-th call is the last one at which the readiness changed. */
  ghost predicate LastChange(first: Status, calls: seq<Call>, k: nat) {
    && 1 <= k <= |calls|
    && ReadinessAfter(first, calls, k) != ReadinessAfter(first, calls, k - 1)
    && forall j | k < j <= |calls| :: ReadinessAfter(first, calls, j) == ReadinessAfter(first, calls, j - 1)
  }

  ghost predicate NeverChanged(first: Status, calls: seq<Call>) {
    forall j | 1 <= j <= |calls| :: ReadinessAfter(first, calls, j) == ReadinessAfter(first, calls, j - 1)
  }

  /** When the first condition says it changed, or the first call where it does not say. */
  function Since(ready: Condition, calls: seq<Call>): Option<int>
    requires calls != []
  {
    if ready.lastTransitionTime.Some? then ready.lastTransitionTime else Some(calls[0].at)
  }

  /** The Ready entry of a status that tells of these calls. */
  ghost predicate ReadyTells(first: Status, calls: seq<Call>, ready: Condition)
    requires calls != []
  {
    && ready.kind == "Ready" && ready.lastTransitionTime.Some?
    && Some(ready.state) == ReadinessAfter(first, calls, |calls|)
    && (forall k | LastChange(first, calls, k) :: ready.lastTransitionTime == Some(calls[k - 1].at))
    && (forall i: nat | NeverChanged(first, calls) && IsFirstReady(ConditionsOf(first), i) ::
          ready.lastTransitionTime == Since(ConditionsOf(first)[i], calls))
  }

  lemma LastChangeMoves(first: Status, calls: seq<Call>, more: Call)
    ensures var longer := calls + [more];
      if ReadinessAfter(first, longer, |longer|) == ReadinessAfter(first, longer, |calls|)
      then && (forall k | LastChange(first, longer, k) :: LastChange(first, calls, k))
           && (NeverChanged(first, longer) ==> NeverChanged(first, calls))
      else && (forall k | LastChange(first, longer, k) :: k == |longer|)
           && !NeverChanged(first, longer)
  {
    var longer := calls + [more];
    assert forall j | 0 <= j <= |calls| :: ReadinessAfter(first, longer, j) == ReadinessAfter(first, calls, j);
  }

  /** Calls either never changed the readiness, or one of them was the last to do so. */
  lemma {:induction false} ChangedOrNot(first: Status, calls: seq<Call>)
    ensures NeverChanged(first, calls) || exists k :: LastChange(first, calls, k)
  {
    if calls != [] {
      var before, more := calls[..|calls| - 1], calls[|calls| - 1];
      assert calls == before + [more];
      assert forall j | 0 <= j <= |before| :: ReadinessAfter(first, calls, j) == ReadinessAfter(first, before, j);
      if ReadinessAfter(first, calls, |calls|) != ReadinessAfter(first, calls, |before|) {
        assert LastChange(first, calls, |calls|);
      } else {
        ChangedOrNot(first, before);
        if exists k :: LastChange(first, before, k) {
          var k :| LastChange(first, before, k);
          assert LastChange(first, calls, k);
        }
      }
    }
  }

  /**
   The conditions of a status that tells of these calls: exactly the entries this
   operator does not own, in the order they had at the start, and one Ready entry
   after them.
   */
  ghost predicate ConditionsTell(first: Status, calls: seq<Call>, status: Status) {
    var conditions := ConditionsOf(status);
    if calls == [] then conditions == ConditionsOf(first)
    else
      && conditions != []
      && AreTheForeign(conditions[..|conditions| - 1], ConditionsOf(first))
      && ReadyTells(first, calls, conditions[|conditions| - 1])
  }

  /** What a later call starts from. */
  lemma TellingConditions(first: Status, calls: seq<Call>, status: Status)
    requires ConditionsTell(first, calls, status)
    ensures AreTheForeign(ForeignConditions(ConditionsOf(status)), ConditionsOf(first))
    ensures var existing := FirstReady(ConditionsOf(status));
      if calls == [] then existing == FirstReady(ConditionsOf(first))
      else existing.Some? && ReadyTells(first, calls, existing.value)
  {
    var conditions := ConditionsOf(status);
    if calls == [] {
      ForeignAreKept(conditions);
    } else {
      var kept, ready := conditions[..|conditions| - 1], conditions[|conditions| - 1];
      assert conditions == kept + [ready];
      KeptHaveNoReady(kept, ConditionsOf(first));
      ForeignOfWritten(kept, ready);
    }
  }

  /** A Ready entry written over one that tells of some calls tells of one more. */
  lemma ReadyTellsMore(first: Status, calls: seq<Call>, memory: Status, c: Call)
    requires var existing := FirstReady(ConditionsOf(memory));
      if calls == [] then existing == FirstReady(ConditionsOf(first))
      else existing.Some? && ReadyTells(first, calls, existing.value)
    ensures ReadyTells(first, calls + [c], ReadyCondition(memory, c.generation, c.w, c.at))
  {
    var longer, ready := calls + [c], ReadyCondition(memory, c.generation, c.w, c.at);
    var existing := FirstReady(ConditionsOf(memory));
    LastChangeMoves(first, calls, c);
    assert existing.Some? ==> Some(existing.value.state) == ReadinessAfter(first, calls, |calls|);
    assert ReadinessAfter(first, longer, |calls|) == ReadinessAfter(first, calls, |calls|);
    forall k | LastChange(first, longer, k) ensures ready.lastTransitionTime == Some(longer[k - 1].at) {
      if k != |longer| {
        assert LastChange(first, calls, k);
      }
    }
    forall i: nat | NeverChanged(first, longer) && IsFirstReady(ConditionsOf(first), i)
      ensures ready.lastTransitionTime == Since(ConditionsOf(first)[i], longer)
    {
      FirstReadyIsFirst(ConditionsOf(first), i);
    }
  }

  /** A call made over a copy that tells of some calls leaves conditions that tell of it too. */
  lemma CallTells(first: Status, calls: seq<Call>, memory: Status, c: Call, status: Status)
    requires ConditionsTell(first, calls, memory)
    requires ConditionsOf(status) == ConditionsOf(Written(memory, c.generation, c.w, c.at))
    ensures ConditionsTell(first, calls + [c], status)
  {
    var foreign, ready := ForeignConditions(ConditionsOf(memory)), ReadyCondition(memory, c.generation, c.w, c.at);
    TellingConditions(first, calls, memory);
    WrittenConditions(memory, c.generation, c.w, c.at);
    ReadyTellsMore(first, calls, memory, c);
    assert (foreign + [ready])[..|foreign|] == foreign;
  }

  /**
   Over any history, lost replies and rereads included, both the store and the
   copy hold the conditions somebody else owns, in order, and one Ready
   condition, last, that tells of their calls: its state is what the last one
   gave, and its transition time that of the last one that changed the answer.
   */
  lemma {:induction false} ReadyConditionHistory(l: Ledger, history: seq<Happening>)
    requires l.memory == l.stored
    ensures var end, a := After(l, history), AccountOf(history);
      ConditionsTell(l.stored, a.told, end.stored) && ConditionsTell(l.stored, a.known, end.memory)
  {
    if history != [] {
      var before, last := history[..|history| - 1], history[|history| - 1];
      ReadyConditionHistory(l, before);
      if last.Called? && !last.fate.NotStored? {
        CallTells(l.stored, AccountOf(before).known, After(l, before).memory, last.call, After(l, history).stored);
      }
    }
  }

  /** What the last of these calls said, or, without any, what the status at the start had. */
  ghost predicate ReadyFrom(first: Status, told: seq<Call>) {
    if told == [] then
      exists i :: 0 <= i < |ConditionsOf(first)|
                  && ConditionsOf(first)[i].kind == "Ready" && ConditionsOf(first)[i].state == True
    else
      var w := told[|told| - 1].w;
      if w.ready.Some? then w.ready.value else w.phase == Published
  }

  lemma ReadinessTold(first: Status, told: seq<Call>, status: Status)
    requires ConditionsTell(first, told, status)
    ensures IsReady(status) <==> ReadyFrom(first, told)
  {
    if told != [] {
      var conditions := ConditionsOf(status);
      var kept, ready := conditions[..|conditions| - 1], conditions[|conditions| - 1];
      KeptHaveNoReady(kept, ConditionsOf(first));
      LastEntryDecides(status, kept, ready);
    }
  }

  /** With one Ready entry, the last, a status is Ready as that entry says. */
  lemma LastEntryDecides(status: Status, kept: seq<Condition>, ready: Condition)
    requires ConditionsOf(status) == kept + [ready] && ready.kind == READY && forall c | c in kept :: c.kind != READY
    ensures IsReady(status) <==> ready.state == True
  {
    assert forall c | c in ConditionsOf(status) :: c == ready || c in kept;
    assert ready in ConditionsOf(status);
  }

  /** A status is Ready as the last call it tells of said, or, telling of none, when it had a Ready entry that was True. */
  lemma ReadinessIsLastGiven(l: Ledger, history: seq<Happening>)
    requires l.memory == l.stored
    ensures IsReady(After(l, history).stored) <==> ReadyFrom(l.stored, AccountOf(history).told)
  {
    ReadyConditionHistory(l, history);
    ReadinessTold(l.stored, AccountOf(history).told, After(l, history).stored);
  }
}
