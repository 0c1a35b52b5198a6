/**
 The decisions a host-keyed pass rests on: whether the host's certificate still
 does the job, whether a signed one may be installed, and whether a signing
 round may open yet. Instants and durations are real seconds; timestamps that
 are stored are whole seconds.
 */
module Renewal {
  import opened Wrappers
  import Durations
  import opened Status

  /** A parsed leaf certificate. `key` identifies the key pair it certifies. */
  datatype Certificate = Certificate(
    fingerprint: string, key: nat, dnsNames: set<string>, notBefore: int, notAfter: int)

  /** PEM bytes: a certificate, or something that cannot be parsed as one. */
  datatype Pem = Garbage | Leaf(cert: Certificate)

  datatype Spec = Spec(dnsNames: seq<string>, renewBefore: Option<string>)

  const SIGNING_COOLDOWN: real := 3600.0
  const REQUEST_TIMEOUT: real := 3600.0
  const RESTART_SIGNING_REQUEUE: real := 5.0
  const AWAITING_ISSUANCE_REQUEUE: real := 120.0

  function Names(spec: Spec): set<string> { set name | name in spec.dnsNames }

  /** `spec.get("renewBefore")` where an empty string counts as absent. */
  function RenewBefore(spec: Spec): Option<string> { NonEmpty(spec.renewBefore) }

  function Lifetime(cert: Certificate): real { (cert.notAfter - cert.notBefore) as real }

  predicate InDate(cert: Certificate, now: real) { cert.notBefore as real <= now < cert.notAfter as real }

  /** The length of the renewal window, when `renewBefore` can be read. */
  function Window(cert: Certificate, renewBefore: Option<string>): Result<real> {
    match renewBefore
    case Some(text) => Durations.Parse(text)
    case None => Success(Lifetime(cert) / 3.0)
  }

  /** `renewal_due`: inside the renewal window, or already invalid. */
  function RenewalDue(cert: Certificate, renewBefore: Option<string>, now: real): Result<bool> {
    if !InDate(cert, now) then Success(true)
    else match Window(cert, renewBefore)
      case Failure(e) => Failure(e)
      case Success(w) => Success(cert.notAfter as real - now <= w)
  }

  datatype Misconfiguration = NotADuration | WindowTooLong

  /** Whether `renewBefore` can never be satisfied by the certificate the host serves. */
  function RenewBeforeProblem(installed: Option<Pem>, spec: Spec): Option<Misconfiguration> {
    if RenewBefore(spec).None? || installed.None? || installed.value.Garbage? then None
    else match Durations.Parse(RenewBefore(spec).value)
      case Failure(_) => Some(NotADuration)
      case Success(w) => if w >= Lifetime(installed.value.cert) then Some(WindowTooLong) else None
  }

  datatype RenewalReason =
    | NotServing | Unparseable | NeverPublished | NotOurs | NotCovering | OutOfDate | RoutineRenewal

  /** Why the host needs a new certificate; Success(None) when it does not. */
  function ReasonToRenew(installed: Option<Pem>, spec: Spec, status: Status, now: real)
    : (r: Result<Option<RenewalReason>>)
    ensures r == Success(None) ==> installed.Some? && installed.value.Leaf?
  {
    if installed.None? then Success(Some(NotServing))
    else if installed.value.Garbage? then Success(Some(Unparseable))
    else
      var cert := installed.value.cert;
      if PublishedOf(status).None? then Success(Some(NeverPublished))
      else if PublishedOf(status).value != cert.fingerprint then Success(Some(NotOurs))
      else if Names(spec) - cert.dnsNames != {} then Success(Some(NotCovering))
      else if !InDate(cert, now) then Success(Some(OutOfDate))
      else match RenewalDue(cert, RenewBefore(spec), now)
        case Failure(e) => Failure(e)
        case Success(due) => Success(if due then Some(RoutineRenewal) else None)
  }

  /** Why a signed certificate must not be installed. */
  predicate Unusable(pem: Pem, spec: Spec) {
    pem.Garbage? || Names(spec) - pem.cert.dnsNames != {}
  }

  /** How long until a new signing round may open, or None if it may now. */
  function CooldownRemaining(status: Status, now: real): Option<real> {
    if status.lastSigningTime.None? then None
    else
      var since := now - status.lastSigningTime.value as real;
      if since >= SIGNING_COOLDOWN then None else Some(SIGNING_COOLDOWN - since)
  }

  /** Whether the spec moved since the status was last written; an absent generation is no evidence of it. */
  predicate SpecChanged(status: Status, generation: int) {
    status.observedGeneration.Some? && status.observedGeneration.value != generation
  }

  /** When a pass that cleared its request asks to be looked at again. */
  function RestartDelay(status: Status, now: real): real {
    match CooldownRemaining(status, now)
    case None => RESTART_SIGNING_REQUEUE
    case Some(remaining) => remaining + 5.0
  }

  // -- Renewal window arithmetic ---------------------------------------------------

  /** The instants at which nothing is due are exactly those from `notBefore` until the window opens. */
  lemma NotDueExactlyBeforeWindow(cert: Certificate, renewBefore: Option<string>, now: real)
    requires Window(cert, renewBefore).Success? && Window(cert, renewBefore).value >= 0.0
    ensures RenewalDue(cert, renewBefore, now).Success?
    ensures !RenewalDue(cert, renewBefore, now).value <==>
            cert.notBefore as real <= now < cert.notAfter as real - Window(cert, renewBefore).value
  {
  }

  /** A duration is never negative. */
  lemma DurationsAreNotNegative(text: string)
    requires Durations.Parse(text).Success?
    ensures Durations.Parse(text).value >= 0.0
  {
    SecondsNotNegative(Durations.Matches(Durations.Trim(text)));
  }

  lemma {:induction false} SecondsNotNegative(tokens: seq<string>)
    ensures Durations.SecondsOf(tokens) >= 0.0
  {
    if tokens != [] {
      TokenNotNegative(tokens[0]);
      SecondsNotNegative(tokens[1..]);
    }
  }

  lemma TokenNotNegative(token: string)
    ensures Durations.TokenSeconds(token) >= 0.0
  {
    if token != "" {
      var unit, q := Durations.UnitSeconds(token[|token| - 1]), Durations.DigitRun(token);
      if q + 1 < |token| && token[q] == '.' {
        var f := Durations.DigitRun(token[q + 1..]);
        WorthNotNegative(token[..q] + token[q + 1..][..f], f, unit);
      } else {
        WorthNotNegative(token[..q], 0, unit);
      }
    }
  }

  lemma WorthNotNegative(digits: string, places: nat, unit: int)
    requires unit >= 0
    ensures Durations.Worth(digits, places, unit) >= 0.0
  {
    Durations.PowerOfTenPositive(places);
  }

  /**
   `renewBefore` is refused exactly when it cannot be read, or when every
   instant would be due: then the certificate would be renewed the moment it
   was installed.
   */
  lemma RejectedExactlyWhenAlwaysDue(cert: Certificate, spec: Spec)
    requires Lifetime(cert) > 0.0 && RenewBefore(spec).Some?
    ensures RenewBeforeProblem(Some(Leaf(cert)), spec).Some? <==>
            forall now: real :: RenewalDue(cert, RenewBefore(spec), now) != Success(false)
  {
    var window := Durations.Parse(RenewBefore(spec).value);
    var start := cert.notBefore as real;
    if window.Success? {
      DurationsAreNotNegative(RenewBefore(spec).value);
      if window.value < Lifetime(cert) {
        assert RenewalDue(cert, RenewBefore(spec), start) == Success(false);
      }
    }
  }

  /** Without `renewBefore` a certificate is never due for the first two thirds of its life. */
  lemma DefaultWindowLeavesTwoThirds(cert: Certificate, now: real)
    requires Lifetime(cert) > 0.0
    ensures RenewalDue(cert, None, now) == Success(false) <==>
            0.0 <= now - cert.notBefore as real < 2.0 * Lifetime(cert) / 3.0
  {
  }

  /** The host's certificate does the job: it is ours, covers every name, and is in date with its window closed. */
  predicate DoesTheJob(installed: Option<Pem>, spec: Spec, status: Status, now: real) {
    && installed.Some? && installed.value.Leaf?
    && PublishedOf(status) == Some(installed.value.cert.fingerprint)
    && (forall name | name in spec.dnsNames :: name in installed.value.cert.dnsNames)
    && RenewalDue(installed.value.cert, RenewBefore(spec), now) == Success(false)
  }

  /** There is no reason to renew exactly when the host's certificate does the job. */
  lemma NoReasonExactlyWhenItDoesTheJob(installed: Option<Pem>, spec: Spec, status: Status, now: real)
    ensures ReasonToRenew(installed, spec, status, now) == Success(None) <==> DoesTheJob(installed, spec, status, now)
  {
    if installed.Some? && installed.value.Leaf? {
      var missing := Names(spec) - installed.value.cert.dnsNames;
      assert forall name | name in spec.dnsNames && name !in installed.value.cert.dnsNames :: name in missing;
      if missing != {} {
        var name :| name in missing;
        assert name in spec.dnsNames;
      }
    }
  }

  /** Past the misconfiguration check, the renewal decision never raises. */
  lemma DecisionNeverRaises(installed: Option<Pem>, spec: Spec, status: Status, now: real)
    requires RenewBeforeProblem(installed, spec).None?
    ensures ReasonToRenew(installed, spec, status, now).Success?
  {
  }

  /** A round is a routine renewal exactly when the host serves a certificate that is ours, covers every name and is in date. */
  lemma RoutineExactlyWhenServing(installed: Option<Pem>, spec: Spec, status: Status, now: real, reason: RenewalReason)
    requires ReasonToRenew(installed, spec, status, now) == Success(Some(reason))
    ensures reason == RoutineRenewal <==>
            && installed.Some? && installed.value.Leaf?
            && PublishedOf(status) == Some(installed.value.cert.fingerprint)
            && (forall name | name in spec.dnsNames :: name in installed.value.cert.dnsNames)
            && installed.value.cert.notBefore as real <= now < installed.value.cert.notAfter as real
  {
    if installed.Some? && installed.value.Leaf? {
      var cert := installed.value.cert;
      forall name | name in spec.dnsNames ensures name in cert.dnsNames || name in Names(spec) - cert.dnsNames {
      }
    }
  }

  // -- Honest retry times ------------------------------------------------------------

  /** The cooldown is over exactly from one hour after the stamp on. */
  lemma CooldownEnds(status: Status, now: real)
    ensures CooldownRemaining(status, now).None? <==>
            status.lastSigningTime.None? || now >= status.lastSigningTime.value as real + SIGNING_COOLDOWN
    ensures CooldownRemaining(status, now).Some? ==>
              forall t: real :: CooldownRemaining(status, t).None? <==> t >= now + CooldownRemaining(status, now).value
  {
  }

  /** Coming back when a refusal, a restart or an unusable certificate said to never meets the cooldown. */
  lemma RetryMeetsNoCooldown(status: Status, now: real, later: real)
    requires later >= now + RestartDelay(status, now)
    ensures CooldownRemaining(status, later).None?
  {
  }

  /** A request older than its timeout was created after a stamp that is no longer in force. */
  lemma TimeoutOutlastsCooldown(status: Status, created: int, now: real)
    requires status.lastSigningTime.Some? ==> status.lastSigningTime.value <= created
    requires now - created as real > REQUEST_TIMEOUT
    ensures CooldownRemaining(status, now).None?
  {
  }
}
