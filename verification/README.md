# Cert-Publisher, modelled and proved in Dafny

Cert-Publisher is a Kubernetes operator that gets certificates from
cert-manager onto hosts outside the cluster. This project models the parts of
it whose correctness rests on order, interleaving or arithmetic, and proves
what they promise.

* **The host-keyed signing protocol** (`SigningProtocol.dfy` and the `Signing*`
  modules; `Reconcile.dfy`). A reconcile pass is a sequence of irreversible
  effects: a strict status stamp, a key rotation on the host, a strict name
  record, the creation of a CertificateRequest, an import, a deletion, and
  best-effort status writes. Each may be done, fail, be done but reported as
  failed, or be cut off by the death of the process; between any two of them
  time passes, the spec is edited, the signing stamp is cleared, cert-manager
  answers, a request vanishes, the host's certificate is replaced. The theorems
  in `SigningRuns.dfy`, `SigningJudgements.dfy`, `SigningReports.dfy`,
  `SigningLog.dfy`, `SigningRetention.dfy`, `SigningEdits.dfy`,
  `SigningProgress.dfy` and `SigningTiming.dfy` hold over every run or from
  every reachable state. `Reconcile.dfy` has the source's functions as methods
  on mutable objects and proves that under every script of outcomes they do
  exactly what the protocol does.
* **The status** (`Status.dfy`): the patch of `set_status`, its merge into the
  in-memory copy, and what a history of successful and failed writes leaves.
* **The decisions** (`Renewal.dfy`, `Durations.dfy`, `CertificateRequests.dfy`):
  renewal windows, the signing cooldown, Go durations, cert-manager's answers.
* **The work queue and its workers** (`WorkQueue.dfy`, `Backoff.dfy`,
  `Workers.dfy`, `KeyReturns.dfy`, `Controller.dfy`): each lock-protected
  section is a function on the queue's state, and a method of a class proved
  equal to it. Any number of workers interleave section by section with watch
  events, lists, the clock and a shutdown. The worker's own loop, on the shared
  objects and with the others acting on them between any two of its sections, is
  proved to be a run of that machine.
* **The publications watcher** (`Watcher.dfy`, `WatchTraces.dfy`,
  `WatchReplays.dfy`, `WatchCourse.dfy`, `WatchLoop.dfy`): the list/watch/resume
  loop over a log of what was done to the publications, the course it takes under
  any answers, the filter in front of the queue, and what the filter makes of
  events that a broken watch delivers again.
* **The operator** (`Operator.dfy`): the watcher's calls and the workers' run
  together. A change somebody makes is read by a pass that comes after it.
* **The Certificate of a publication** (`CertManager.dfy`): the desired spec,
  drift, and repair by JSON Merge Patch (RFC 7396).

Some results are about where a promise of the code ends. Each comes with its
exact condition and an input:

* A signed certificate that waits is retained over every failure, unless the pass
  in hand is already about to discard it: `SigningRetention.MaterialCanBeLostExactly`
  says when, and in `SigningWitnesses.ApprovalRacesTimeout` an approval arrives while
  its request is being deleted as timed out.
* The status messages say that editing the spec retries immediately. It does until
  a status write records the new generation, which the write of a failed pass
  already does, if that pass had read the edit: `SigningEdits.EditOpensTheGateExactly`
  says over every run when the gate opens, and `SigningWitnesses.EditIsSpent` is a run
  in which it stays shut.
* A factory certificate is meant to be replaced by the first pass over a fresh host.
  It is not when the spec has a `renewBefore` that is at least as long as the factory
  certificate's own lifetime, because the check judges the certificate the host
  serves and not the one that would be issued: `SigningProgress.SettlesExactly`, and
  `SigningProgress.FactoryCertificateBlocks`.
* The operator's own status writes queue nothing when they are delivered once and
  in order. A watch that breaks delivers them again, and one of them may then queue
  its key: `WatchReplays.OwnReplayIsSilentExactly`, and `WatchReplays.OwnReplayMayBeHeard`.
* The in-memory status is what is stored until the reply to a write is lost:
  `Status.MemoryIsStoredExactly`, and `Status.LostReplyIsForgotten`. It is again once
  everything lost has been written anew: `Status.MakingUpRestoresMemory`.
* A Certificate whose managed field holds a key, at any depth, that the desired
  value lacks is never settled by the operator's merge patch:
  `CertManager.DriftSettlesAtOnceOrNever`, and `CertManager.ExtraKeyDriftsForever`.
* Jitter is drawn after the ceiling, so a delay may exceed it:
  `Backoff.CeilingHoldsExactly`, and `Backoff.CeilingMayBeExceeded`. The exponent's clamp
  is invisible exactly when the clamped doubling reaches the ceiling:
  `Backoff.ClampNeverShows`.

Conventions: stored timestamps are whole seconds and instants are real seconds,
so a stamp is the floor of its instant. Certificates are records with a
fingerprint and a key; parsing has either given such a record or failed.

## Model

| member | source | states |
|---|---|---|
| `SigningRuns.RunsAreSafe` | src/cert_publisher/reconcile.py:194-279 | every reachable state of the protocol, whatever effects fail, lie or are cut off, keeps all the safety invariants at once |
| `SigningRuns.RotationIsThrottled` | src/cert_publisher/reconcile.py:237-279 | two consecutive rounds that reach the host carry stamps at least 3600 s apart, unless a spec edit or a clearing of the stamp lies between the reads of their passes |
| `SigningRuns.RoundsInAnHour` | src/cert_publisher/reconcile.py:245-279 | rounds stamped within less than an hour number at most one more than the edits and clears between their reads |
| `SigningRuns.KeysAgree` | src/cert_publisher/reconcile.py:202-207 | every live request's CSR was minted from the key the host holds now, and every import ever called was of a certificate for the key the host then held |
| `SigningRuns.NoRequestIsOrphaned` | src/cert_publisher/reconcile.py:600-616 | every live request is the one the stored status names, so at most one is live |
| `SigningRuns.ImportedOnlyWhenMissing` | src/cert_publisher/reconcile.py:523-558 | an import is called only by a pass that, at its own read of the publication or after it, could not read the host or found it serving another certificate or none |
| `SigningRuns.ImportsHappenOnce` | src/cert_publisher/reconcile.py:523-531 | a certificate whose import took effect is imported again only if its certificate was replaced on the host or another was imported in between, or by a pass that could not read the host |
| `SigningRuns.DeletedOnlyAfterServed` | src/cert_publisher/reconcile.py:523-536 | a request is deleted as delivered only by a pass in which the host served its certificate, at that pass's own read of the publication or after it |
| `SigningRuns.ReadyThroughRenewal` | src/cert_publisher/reconcile.py:585-612 | Published implies Ready, Error implies not Ready, and Pending is Ready exactly when the last round was opened for a certificate that was ours, covered all names and was in date, and no Error has been stored since |
| `SigningRuns.TimeoutRetryIsNotRefused` | src/cert_publisher/reconcile.py:453-474 | when a request is given up as never signed the cooldown is already over, in every run |
| `SigningJudgements.FetchIsJudgedExactly` | src/cert_publisher/reconcile.py:426-519 | a fetch that is answered, exactly: a request that is gone is cleared; one that was turned down, has no answer after more than an hour, or was issued no certificate or one that misses a name of the spec is deleted for that; one issued a certificate for every name goes on to the host; and otherwise the pass comes back in 120 s |
| `SigningJudgements.InspectionIsJudgedExactly` | src/cert_publisher/reconcile.py:209-235 | what the host serves, exactly: a `renewBefore` it can never satisfy is reported, a certificate that is ours, covers every name and is neither early, expired nor due is reported as published, and in every other case a round is wanted; a host that cannot be asked fails the pass |
| `SigningJudgements.DeletionsAreEarned` | src/cert_publisher/reconcile.py:426-542 | in every run, a request is deleted for a reason only after a fetch by which it was earned: turned down, unanswered for more than an hour, garbage or missing a name, or issued a certificate that covers the spec |
| `SigningJudgements.TimelyRequestsAreKept` | src/cert_publisher/reconcile.py:426-474 | a request that is never denied, invalid or failed, and never older than an hour, is deleted by a pass only after a fetch that found it issued |
| `SigningJudgements.InstallsOnlyWhatCovers` | src/cert_publisher/reconcile.py:359-374 | in every reachable state about to look at the host or to import, every name of the pass's spec is in the certificate |
| `SigningJudgements.ImportsCoverTheSpec` | src/cert_publisher/reconcile.py:487-531 | every certificate an import was ever called with carries every name the spec had when that pass read the publication |
| `SigningJudgements.RequestsKeepTheirKey` | src/cert_publisher/kube.py:94-109 | a request that does not go away keeps its key and its creation time: a create that finds the name taken adopts what is there |
| `SigningJudgements.FailuresAreRaised` | src/cert_publisher/reconcile.py:426-617 | an effect that fails, or whose reply is lost, fails the pass at that instant, at every stage but three: a host that cannot be asked does not block an import, and a report or the record of a failure ends the pass all the same; a failed effect changes nothing |
| `SigningJudgements.HoldingIsJudgedExactly` | src/cert_publisher/reconcile.py:523-558 | the import is left out exactly when the host, asked just before, serves a certificate with that fingerprint |
| `SigningLog.HistoryIsTrue` | src/cert_publisher/reconcile.py:194-617 | in every run, the history the safety theorems speak of is the one there was: the host's key and certificate, the requests, the stamp, the storing of an Error, the spec and the reads change only with their events, and every event happened when it was added |
| `SigningReports.EndingsAreHonest` | src/cert_publisher/reconcile.py:194-542 | in every run, a pass that ends without failing leaves one of seven reasons, and with it the phase, the readiness, whether a request is recorded, and a retry time equal to the write's own time plus what the pass asked for, to the second; a request said to be not signed or not usable was deleted by that pass for that |
| `SigningReports.ReasonsFitPhases` | src/cert_publisher/status.py:33-62 | in every reachable state, whatever failed or died, the stored reason is one of those of the stored phase |
| `SigningTiming.FailureNamesItsRetry` | src/cert_publisher/controller.py:611-629 | in any run, when the failure of a pass is recorded the publication is in Error, not Ready, and announces the second of the failure plus the backoff the pass had in store |
| `SigningRetention.SignedMaterialIsRetained` | src/cert_publisher/reconcile.py:487-542 | in any reachable state where a usable signed certificate waits and the pass in hand is not about to discard it: over any failures, deaths, clock, clearings, host replacements and edits that it still covers no key is rotated, and it still waits or its request was deleted by a pass in which the host had served it |
| `SigningRetention.MaterialCanBeLostExactly` | src/cert_publisher/reconcile.py:443-519 | in any reachable state where it waits, it can be lost undelivered without an edit that it does not cover or anybody's hand on the request exactly when the pass in hand is deleting the request on another verdict, holds a spec the certificate does not cover, or is delivering another certificate the request carried |
| `SigningWitnesses.ApprovalRacesTimeout` | src/cert_publisher/reconcile.py:453-474 | a run from an unreconciled publication in which a usable certificate, signed while the request is being deleted as timed out, is lost by the pass's next effect |
| `SigningWitnesses.EditIsSpent` | src/cert_publisher/reconcile.py:245-270 | a run in which the spec is edited, the next pass fails and records its failure, and the one after is refused by the cooldown |
| `SigningTiming.RetryIsNotRefused` | src/cert_publisher/reconcile.py:251-270 | a pass at or after the time named by a refusal, a restart or an unusable certificate, over the same stamp, opens a round |
| `SigningTiming.EveryRefusalNamesATime` | src/cert_publisher/reconcile.py:392-410 | those three answers all name the same time in the requeue and in the status, five seconds past the end of the cooldown or from now |
| `SigningEdits.EditOpensTheGateExactly` | src/cert_publisher/reconcile.py:237-270 | in every reachable state at the gate, a round opens exactly when the cooldown is over or the spec was edited between what this pass read and what the pass whose status write took effect last had read |
| `SigningTiming.EditIsSpentByAnyWrite` | src/cert_publisher/reconcile.py:249-251 | after a status write at a generation, a round opens exactly when the spec moved after it or the cooldown is over |
| `SigningTiming.SettledStaysQuiet` | src/cert_publisher/reconcile.py:209-235 | a settled publication outside its renewal window stays settled over every undisturbed run: only its status and the clock move, and no round is opened |
| `SigningProgress.NeverWedged` | src/cert_publisher/reconcile.py:597-617 | from every reachable state, whatever failed or died before, the pass in hand comes to its end by effects that are done; and with a spec that leaves `renewBefore` out, such effects, time and an answer of cert-manager settle the publication |
| `SigningProgress.SettlesExactly` | src/cert_publisher/reconcile.py:209-227 | between passes, in every reachable state, the publication can be settled without an edit, a hand on the host or a blank answer from it exactly when `renewBefore` is readable and a request is outstanding or nothing is wrong with it over the certificate the host serves now |
| `SigningProgress.FactoryCertificateBlocks` | src/cert_publisher/reconcile.py:293-317 | a one-day certificate on the host and a `renewBefore` of ten days: no run settles the publication, though there are certificates that would satisfy its spec |
| `Reconcile.Operate` | src/cert_publisher/controller.py:588-629 | pass after pass, under every script and with any backoff delay for each pass, the operator's methods bring the world exactly where the protocol's run of that script brings it |
| `Reconcile.OperateSafely` | src/cert_publisher/reconcile.py:194-279 | started on a publication nobody has reconciled, those methods end in a state with every safety invariant, under every script |
| `Reconcile.ReconcileOnce` | src/cert_publisher/controller.py:588-629 | one pass answers the requeue time the protocol gives, or that it failed; a failure whose record was acknowledged is stored as Error with a retry time; every pass consumes the script and ends idle |
| `Reconcile.ReconcileHostKeyed` | src/cert_publisher/reconcile.py:194-279 | the whole pass stays in step with the protocol and ends with its requeue time, or raising at the protocol's failure point |
| `Reconcile.Report` | src/cert_publisher/status.py:176-185 | a best-effort write never fails the pass: it ends with the requeue time the protocol gives, whether the write landed or not |
| `Reconcile.OpenUnlessCooling` | src/cert_publisher/reconcile.py:245-279 | the cooldown gate and what follows stay in step with the protocol |
| `Reconcile.StartSigning` | src/cert_publisher/reconcile.py:561-617 | stamp before rotation, and each failure leaves the pass where the protocol says |
| `Reconcile.SubmitRequest` | src/cert_publisher/reconcile.py:597-617 | the name is recorded before the request is created |
| `Reconcile.RestartSigning` | src/cert_publisher/reconcile.py:377-410 | clears the pending name and answers the time the cooldown allows |
| `Reconcile.ResolvePendingRequest` | src/cert_publisher/reconcile.py:426-542 | every answer of cert-manager leads where the protocol says, which is what `SigningJudgements.FetchIsJudgedExactly` states |
| `Reconcile.InstallIssued` | src/cert_publisher/reconcile.py:487-542 | a signed certificate is refused, found installed, or imported, in step with the protocol of which `SigningJudgements.ImportsCoverTheSpec` and `SigningRuns.DeletedOnlyAfterServed` are proved |
| `Reconcile.RefuseCertificate` | src/cert_publisher/reconcile.py:488-519 | an unusable certificate's request is deleted and the retry is gated by the cooldown |
| `Reconcile.DropDelivered` | src/cert_publisher/reconcile.py:533-542 | the request of an installed certificate is deleted before the publication is reported Published |
| `Reconcile.Site.SetStatus` | src/cert_publisher/status.py:176-198 | a patch that lands updates the in-memory copy and announces exactly the transition; one that does not changes neither, and raises only when strict |
| `Reconcile.Site.PatchPublicationStatus` | src/cert_publisher/kube.py:123-128 | the stored status is merged with the patch when the write took effect, reported or not |
| `Reconcile.Site.GenerateCsr` | src/cert_publisher/provisioners/base.py:48-55 | the host's key is rotated when the call took effect, and the CSR is of the new key |
| `Reconcile.Site.CreateCertificateRequest` | src/cert_publisher/kube.py:94-109 | a request is created, or one that has the name already is adopted as it is |
| `Reconcile.Site.DeleteCertificateRequest` | src/cert_publisher/kube.py:111-121 | the request is gone when the call took effect, and deleting an absent one succeeds |
| `Reconcile.Site.ImportCertificate` | src/cert_publisher/provisioners/base.py:57-59 | the host serves the certificate when the call took effect |
| `Reconcile.Site.AlreadyHolds` | src/cert_publisher/reconcile.py:545-558 | before an import, the certificate is held exactly when the read succeeded and its fingerprint is the one; a failed read never blocks the import |
| `Reconcile.Site.InstalledCertificate` | src/cert_publisher/reconcile.py:209-227 | what the host serves decides the pass: a blank answer is no certificate, a failed read fails the pass |
| `Status.BuildPatch` | src/cert_publisher/status.py:140-174 | the dictionary built member by member is the patch the histories below are stated over |
| `Status.MergeInto` | src/cert_publisher/status.py:187-196 | the in-memory merge loop is section 2 of RFC 7396 for a flat patch |
| `Status.MergeIsMergePatch` | src/cert_publisher/status.py:187-196 | the merge of typed statuses is that merge of the dictionaries they stand for |
| `Status.ConditionsAfter` | src/cert_publisher/status.py:71-112 | after a write the last condition is the one Ready entry, telling this outcome, with the transition time of the first earlier one if that said the same; those before it are the old list's entries at exactly the indices whose type is not Ready, in order |
| `Status.StoreIsMemoryAndUnheard` | src/cert_publisher/status.py:176-196 | over any history of writes that land, fail or lose their reply, and of rereads, what is stored is the in-memory status with the unheard writes merged in |
| `Status.MemoryIsStoredExactly` | src/cert_publisher/status.py:187-196 | the two are equal exactly when no write whose reply was lost wrote anything the in-memory status does not have |
| `Status.MakingUpRestoresMemory` | src/cert_publisher/status.py:176-196 | they are equal again once every member a lost write put in has been written by an acknowledged one, or the publication was reread: a condition on the history alone |
| `Status.LostReplyIsForgotten` | src/cert_publisher/status.py:176-196 | one recorded failure whose reply is lost leaves a stored Error that the in-memory status does not have |
| `Status.MemoryIsStored` | src/cert_publisher/status.py:176-196 | in particular while no reply is lost, whatever else fails |
| `Status.EventsCountChanges` | src/cert_publisher/status.py:198-216 | the Events number the acknowledged writes that changed the (phase, reason) pair the in-memory status had |
| `Status.MembersAreLastWritten` | src/cert_publisher/status.py:140-174 | over any such history every other stored member is what the last call to write it wrote, and otherwise as it was: phase, reason, message, generation, times and the retry time by every call, the fingerprint, the request's name and the two stamps only by the calls that give them |
| `Status.ReadyConditionHistory` | src/cert_publisher/status.py:71-112 | over any such history the conditions of both the store and the copy are exactly the foreign entries of the start, in order, and one Ready entry, last, that tells of their calls: its state is what the last gave and its transition time that of the last that changed the answer; calls whose reply was lost are forgotten by the next |
| `Status.ReadinessIsLastGiven` | src/cert_publisher/status.py:65-68 | over any such history the stored status is Ready exactly when the last call it tells of said so, or, telling of none, when it had a Ready entry that was True |
| `Status.ChangedOrNot` | src/cert_publisher/status.py:91-94 | a sequence of calls either never changed the readiness or has a last call that did |
| `Renewal.NotDueExactlyBeforeWindow` | src/cert_publisher/utils.py:102-122 | the instants not due are exactly those from notBefore until the window before notAfter opens |
| `Renewal.RejectedExactlyWhenAlwaysDue` | src/cert_publisher/reconcile.py:293-317 | for a positive lifetime renewBefore is rejected exactly when no instant would be outside its window, or it cannot be read |
| `Renewal.DefaultWindowLeavesTwoThirds` | src/cert_publisher/utils.py:102-122 | without renewBefore the instants not due are exactly the first two thirds of the lifetime |
| `Renewal.DecisionNeverRaises` | src/cert_publisher/reconcile.py:212-227 | past the misconfiguration check the renewal decision never raises on renewBefore |
| `Renewal.NoReasonExactlyWhenItDoesTheJob` | src/cert_publisher/reconcile.py:320-356 | there is no reason to renew exactly when the host serves a certificate that is ours, covers every name, and is not due |
| `Renewal.RoutineExactlyWhenServing` | src/cert_publisher/reconcile.py:320-356 | a round is a routine renewal exactly when the host serves a certificate that is ours, covers every name and is in date |
| `Renewal.CooldownEnds` | src/cert_publisher/reconcile.py:413-418 | the cooldown is over exactly from one hour after the stamp, and what remains of it is exact |
| `Renewal.RetryMeetsNoCooldown` | src/cert_publisher/reconcile.py:497-519 | coming back after the restart delay never meets the cooldown |
| `Renewal.TimeoutOutlastsCooldown` | src/cert_publisher/reconcile.py:453-474 | a request past its timeout, created no earlier than the stamp, outlasts the cooldown |
| `CertificateRequests.DenialIsTerminal` | src/cert_publisher/certmanager.py:191-213 | once Denied or InvalidRequest holds, no later condition of another type makes the request anything but rejected |
| `CertificateRequests.AnswersExactly` | src/cert_publisher/certmanager.py:191-213 | rejected exactly when the last Denied or the last InvalidRequest entry is true, or the last Ready entry is not and says Failed; issued exactly when none of these and the last Ready entry is true; waiting otherwise |
| `Durations.ParseGoDuration` | src/cert_publisher/utils.py:74-90 | the accumulating loop returns the sum of the tokens' values, or the error of the scan-and-rejoin check |
| `Durations.AcceptsExactlyDurations` | src/cert_publisher/utils.py:66-90 | the parser accepts a text exactly when, trimmed, it is one or more number-unit tokens and nothing else |
| `Durations.ScanFindsTokens` | src/cert_publisher/utils.py:66-90 | scanning glued tokens finds exactly those tokens, whatever the greedy matches could have run into |
| `Durations.TrimIsExact` | src/cert_publisher/utils.py:81 | the text that is scanned is the value without the spaces at either end, and neither begins nor ends with one |
| `Durations.ValueIsAdditive` | src/cert_publisher/utils.py:82-90 | the value of two durations glued together is the sum of their values |
| `Durations.PrintParseRoundTrip` | src/cert_publisher/utils.py:74-90 | printing whole hours, minutes and seconds and parsing the text returns the same total |
| `Durations.PointShifts` | src/cert_publisher/utils.py:74-90 | moving the point one digit to the right makes what is parsed ten times as long |
| `Durations.PointDivides` | src/cert_publisher/utils.py:74-90 | a point before the last digit of a whole amount makes it a tenth as long |
| `WorkQueue.PromotionIsExact` | src/cert_publisher/workqueue.py:150-156 | despite stale and equal-time heap entries, promotion removes exactly the due deadlines, makes exactly those keys dirty, and appends, once each and in deadline order, those neither dirty nor in hand; every remaining deadline is later |
| `WorkQueue.FirstIsEarliest` | src/cert_publisher/workqueue.py:107-109 | the heap's first entry is no later than any live deadline |
| `WorkQueue.AddAfterTakesNearest` | src/cert_publisher/workqueue.py:59-77 | a delayed add stores the minimum of the old deadline and the new one and touches nothing else |
| `WorkQueue.NoDelayIsAtOnce` | src/cert_publisher/workqueue.py:59-66 | an add after no time, or less, makes the key dirty at once, drops the deadline of a key that was not dirty, and changes no other key |
| `WorkQueue.AddSupersedesDelay` | src/cert_publisher/workqueue.py:138-148 | after an immediate add the key is dirty and has a deadline exactly when it had one and was dirty already; no other key's deadline or dirtiness changes |
| `WorkQueue.GetServesInOrder` | src/cert_publisher/workqueue.py:93-102 | keys are handed out in the order they came up: those already queued, then those fallen due, earliest deadline first |
| `KeyReturns.ServedInTurn` | src/cert_publisher/workqueue.py:93-117 | over every run of the workers, a key that waits behind i others is the one handed out after i more: a key given back, added or fallen due meanwhile comes after it |
| `WorkQueue.AddAfterKeeps` | src/cert_publisher/workqueue.py:59-77 | a delayed add keeps the heap ordered, every deadline backed by an entry, and the queue exactly the dirty keys in nobody's hands |
| `WorkQueue.GetKeeps` | src/cert_publisher/workqueue.py:93-102 | so does handing out a key |
| `WorkQueue.DoneKeeps` | src/cert_publisher/workqueue.py:111-117 | giving back a key keeps those invariants exactly when the key is held or is not dirty |
| `WorkQueue.PushKeepsOrder` | src/cert_publisher/workqueue.py:76 | a push keeps the heap ordered by due time and sequence and holds exactly one entry more |
| `WorkQueue.KeyQueue.Add` | src/cert_publisher/workqueue.py:53-57 | the queue object stays well-formed and moves to the state `WorkQueue.AddSupersedesDelay` describes |
| `WorkQueue.KeyQueue.AddUnderLock` | src/cert_publisher/workqueue.py:138-148 | the early returns and field updates amount to the add the queue theorems are about |
| `WorkQueue.KeyQueue.AddAfter` | src/cert_publisher/workqueue.py:59-77 | the queue object stays well-formed and moves to the state `WorkQueue.AddAfterTakesNearest` describes |
| `WorkQueue.KeyQueue.PromoteDue` | src/cert_publisher/workqueue.py:150-156 | the popping loop, stale entries and all, ends in the state `WorkQueue.PromotionIsExact` describes |
| `WorkQueue.KeyQueue.TryGet` | src/cert_publisher/workqueue.py:93-109 | nothing is handed out once shut; a key handed out was in nobody's hands; a caller waits exactly while there is no key, no shutdown and time left, and never past a live deadline or its own |
| `WorkQueue.KeyQueue.Done` | src/cert_publisher/workqueue.py:111-117 | any key at all is released, and queued again if it is dirty; the queue stays well-formed exactly as `WorkQueue.DoneKeeps` says |
| `WorkQueue.KeyQueue.Shutdown` | src/cert_publisher/workqueue.py:121-125 | only the shutdown flag changes |
| `Backoff.ExponentialBackoff.NextBackoff` | src/cert_publisher/workqueue.py:175-183 | one key's count goes up by one, and its delay is the clamped, capped doubling with jitter last |
| `Backoff.ExponentialBackoff.Forget` | src/cert_publisher/workqueue.py:189-191 | one key's count is dropped and no other |
| `Backoff.DelayNeverShrinks` | src/cert_publisher/workqueue.py:180 | more failures never make for a shorter delay before jitter |
| `Backoff.DelayDoubles` | src/cert_publisher/workqueue.py:175-180 | the first failure waits the base, each of the next 32 twice the delay before it, within the ceiling, and later ones no more |
| `Backoff.ClampNeverShows` | src/cert_publisher/workqueue.py:179-180 | the delay equals min(base * 2^n, max) for every n exactly when the clamped doubling reaches max |
| `Backoff.JitterIsBounded` | src/cert_publisher/workqueue.py:181-183 | the jittered delay stays within the jitter's fraction of the delay, on either side |
| `Backoff.CeilingHoldsExactly` | src/cert_publisher/workqueue.py:180-182 | every jitter sample keeps the delay within the ceiling exactly when the delay leaves room for the whole jitter |
| `Backoff.CeilingMayBeExceeded` | src/cert_publisher/workqueue.py:180-182 | with a base of 5 s, a ceiling of 900 s and a jitter of a tenth, the retry after eight failures may wait 990 s |
| `Workers.RunsAreOrderly` | src/cert_publisher/controller.py:568-629 | over every interleaving: exclusion, no key dropped, promises kept, failure counts exact, and no exit or shutdown before the stop |
| `Workers.NoTwoWorkersHoldAKey` | src/cert_publisher/workqueue.py:93-117 | no two workers hold one key; the queue has no duplicates and is exactly dirty minus processing; the in-flight map is within processing |
| `Workers.NoKeyIsDropped` | src/cert_publisher/controller.py:588-646 | before the shutdown a key listed or announced is dirty, delayed or in a worker's hands until a worker reads its publication as gone |
| `Workers.OnlyGoneIsForgotten` | src/cert_publisher/controller.py:598-603 | the only step that forgets a key is a worker holding it reading its publication as gone |
| `Workers.PassesComeBack` | src/cert_publisher/controller.py:583-646 | when a worker lets go of a key whose publication exists or could not be read, the key is dirty or has a deadline no later than the delay its pass chose |
| `KeyReturns.ChosenDelayIsKept` | src/cert_publisher/controller.py:588-646 | over every run, from the action by which a worker's pass ends with a delay, or by which a failure earns one, to the same worker's next putting back at an instant n: the key is then dirty or has a deadline no later than n plus that very delay, and exactly that if it had none |
| `KeyReturns.GoneIsNotPutBack` | src/cert_publisher/controller.py:598-603 | over every run, a worker that has read its key's publication as gone does not put the key back before it returns it |
| `KeyReturns.ListedWaitsItsSpread` | src/cert_publisher/controller.py:648-657 | a listed key waits exactly the spread chosen for it, unless it is to come up earlier already |
| `KeyReturns.StopShuts` | src/cert_publisher/controller.py:498-499 | a run in which the queue is shut after a stop ends stopping and with the queue shut |
| `Workers.DelayFollowsFailures` | src/cert_publisher/controller.py:590-629 | over every run, a key whose publication cannot be read and one whose pass fails come back after the delay earned by the key's failures in a row; a success and a gone read end the row |
| `Workers.NothingIsHandedOutOnceShut` | src/cert_publisher/workqueue.py:81-102 | after the shutdown no worker ever holds a key it did not hold then |
| `Workers.StoppedMeansIdle` | src/cert_publisher/controller.py:483-523 | when the queue is shut and every worker has exited, nothing is processing or in flight, and at no later moment is anything |
| `Controller.LoopIsRun` | src/cert_publisher/controller.py:568-586 | under any schedule of the other workers, the watchers, the clock and a stop, a worker's loop is a run of the interleaving machine, in which the others' actions come as they were made and each of its own is the one next for it |
| `Controller.RunWorker` | src/cert_publisher/controller.py:435-461 | a fresh controller and one of its workers' loops on any schedule: the objects end as such a run has them, with exclusion, no key dropped, exact failure counts and order of stopping |
| `Controller.Controller.Work` | src/cert_publisher/controller.py:568-586 | the worker loop on the shared objects, with the others acting between any two of its sections, brings them moment by moment where the machine goes, to the end of the schedule or until the worker has seen the stop flag and left |
| `Controller.Controller.TakeTurn` | src/cert_publisher/controller.py:570-586 | one turn looks at the flag, asks for a key, handles it, and comes back to the head of the loop or leaves |
| `Controller.Controller.Ask` | src/cert_publisher/workqueue.py:81-109 | `get` goes on turn after turn until there is a key, the queue is shut or its second is over |
| `Controller.Controller.HandleKey` | src/cert_publisher/controller.py:574-586 | registration, pass, deregistration and `done`, in that order, whatever the others do in between, and the worker is back at the head of its loop |
| `Controller.Controller.Reconcile` | src/cert_publisher/controller.py:588-629 | however the read and the pass go, the worker ends with its key put back or dropped and only deregistration left |
| `Controller.Controller.ReadPublication` | src/cert_publisher/controller.py:590-603 | an unreadable publication counts as a failure and is to come back after the delay earned, one that is gone has its count dropped and its key forgotten |
| `Controller.Controller.FinishPass` | src/cert_publisher/controller.py:605-629 | a pass that raises counts as a failure and is to come back after the delay earned by the key's failures until then; a success ends the count and is to come back after the delay it asked for |
| `Controller.Controller.OtherWorks` | src/cert_publisher/controller.py:568-629 | another worker's section does to the shared objects what the machine's step does, and one that is not its next does nothing |
| `Controller.Controller.CountFailure` | src/cert_publisher/workqueue.py:201-205 | the failure is counted before the key is put back, with the delay that goes with it |
| `Controller.Controller.Happens` | src/cert_publisher/controller.py:498-499 | a stop sets the flag and then shuts the queue; a watch event and a list add their keys |
| `Operator.ChangesAreLookedAt` | src/cert_publisher/workqueue.py:14-20 | the mark that handled a change somebody made has a call and an action of its own, made after the change; at every later moment before the shutdown the key is dirty, or held by a worker that has yet to read its publication, or the publication has been read since, with the change in it |
| `Operator.ListedAreLookedAt` | src/cert_publisher/controller.py:648-657 | the same for each publication a list returned, whose key may also be delayed, but no longer than the spread chosen for it |
| `Operator.FailedReadsAreRetried` | src/cert_publisher/controller.py:588-613 | until a read that came after the addition is answered, the key is dirty, delayed, or held by a worker that has yet to read or to put it back |
| `Operator.CallsQueueTheKeys` | src/cert_publisher/controller.py:445-453 | the calls carry exactly the keys the watcher's loop queues, in order |
| `Watcher.FilterIsExact` | src/cert_publisher/controller.py:349-371 | for a watcher that remembers the store, an event queues its key exactly when somebody edited, created, deleted, or took away a signing stamp |
| `Watcher.OwnPatchesKeepTheStamp` | src/cert_publisher/status.py:160-174 | no `set_status` patch is loud, whatever status it was computed from |
| `Watcher.HistoryIsHeardExactly` | src/cert_publisher/controller.py:333-371 | over any history delivered once and in order, a seeded watcher queues a key once for each such change, in order, and for nothing else |
| `Watcher.OwnWritesAreSilent` | src/cert_publisher/controller.py:349-371 | a history of the operator's own status writes, delivered once and in order, queues nothing |
| `WatchLoop.WatchThread.Run` | src/cert_publisher/controller.py:191-247 | under any answers and any moment of stop: the loop lists, watches, handles and loses its position exactly as the fold `WatchCourse.CourseOf` over the answers says, and is left with the position and stop flag of it; the keys queued are exactly those its lists and its filter handed over, in order; every position watched from follows a list still in force with every event in between handled; every event is judged over a memory that keeps track of the watch; nothing is listed again while the last list's position is good; a held position implies synced, and synced means listed and not refused since |
| `WatchCourse.UndisturbedHandlesOnce` | src/cert_publisher/controller.py:191-247 | as long as every stream is closed by the apiserver, each event from the first list up to the position held is handled once, in order |
| `WatchCourse.FatalFailureMeansRelisting` | src/cert_publisher/controller.py:202-231 | after a turn whose list or watch failed with a 410 or a refused access no position is held, and in the course from then on nothing is watched before something has been listed anew |
| `WatchCourse.OtherEndsAreResumed` | src/cert_publisher/controller.py:232-247 | after a turn that failed in any other way, or was closed, the next watch starts from the position it had begun or got to, without a list |
| `WatchCourse.WatchingTurnIsExact` | src/cert_publisher/controller.py:191-231 | the marks of a turn that watches, one by one: the list if no position was held, the watch, the events handled in order up to the stop or the end of the stream, and the loss after a 410 or a refused access; and whether the loop stops |
| `WatchCourse.FailedListIsExact` | src/cert_publisher/controller.py:197-231 | a turn whose list fails watches nothing and holds no position, and is marked as a loss of access exactly when access was refused |
| `WatchLoop.LostPositionsAreRelisted` | src/cert_publisher/controller.py:202-231 | in the trace that `WatchThread.Run` leaves, every watch after such a 410 or refused access comes after a later list |
| `WatchLoop.LoudIsQueued` | src/cert_publisher/controller.py:314-347 | every change somebody made since the list in force, up to a position nothing was skipped to, is among the keys queued |
| `WatchLoop.ListedIsQueued` | src/cert_publisher/controller.py:270-278 | so is every publication a list returned |
| `WatchLoop.FirstHearingIsExact` | src/cert_publisher/controller.py:349-371 | in every trace of the loop, an event handled for the first time since a list queues its key exactly when somebody made the change |
| `WatchLoop.LaterHearingIsExact` | src/cert_publisher/controller.py:349-371 | so does a replayed event once the watch in progress has handled another event of its key |
| `WatchLoop.ReplayIsHeardAgainstAnotherMoment` | src/cert_publisher/controller.py:365-371 | any other replayed event queues its key exactly when it differs, as the filter sees it, from the publication at some moment between the position watched from and the last event handled |
| `WatchLoop.OwnReplayIsHeardExactly` | src/cert_publisher/controller.py:365-371 | among the operator's own writes, a replayed event queues its key exactly when the watcher remembers a stamp that the event lacks |
| `WatchReplays.OwnReplayIsSilentExactly` | src/cert_publisher/controller.py:349-371 | watching the operator's own writes again queues nothing exactly when none of them shows a publication without a stamp that the watcher remembers it with |
| `WatchReplays.StampedBeforeMeansSilent` | src/cert_publisher/controller.py:349-371 | it does when every publication they write to was stamped at the resumed position or is remembered without a stamp |
| `WatchReplays.OwnReplayMayBeHeard` | src/cert_publisher/controller.py:365-371 | two own writes handled, a broken watch, and the first of them queues its key when delivered again |
| `WatchLoop.WatchThread.ListAndWatch` | src/cert_publisher/controller.py:195-200 | one attempt lists when no position is held and watches from the position it then has, leaves the marks, the position and the failure that its answers make, and keeps the position accounted for whether it ends cleanly or not |
| `WatchLoop.WatchThread.Recover` | src/cert_publisher/controller.py:205-231 | after a 410 no position is held and the readiness is as it was; after a refused access no position is held and the watcher is not synced; after any other failure, or none, both are as they were |
| `WatchLoop.WatchThread.WatchFrom` | src/cert_publisher/controller.py:297-331 | every event the stream yielded before the stop is handled, in order; a clean end resumes after the last event yielded, a broken one where it began; an event seen after the stop is left unhandled |
| `WatchLoop.WatchThread.Sync` | src/cert_publisher/controller.py:258-284 | after a list the watcher is synced, and everything up to the list's position is accounted for |
| `WatchLoop.WatchThread.Remember` | src/cert_publisher/controller.py:272-277 | the watcher remembers exactly what was listed and queues every publication of it once |
| `WatchLoop.WatchThread.Handle` | src/cert_publisher/controller.py:333-347 | an event is remembered, and its key queued exactly when the filter lets it through |
| `WatchLoop.WatchThread.DecideAndRemember` | src/cert_publisher/controller.py:349-371 | the filter's answer against what was seen before, which the event then replaces |
| `WatchReplays.HandlingKeepsTrack` | src/cert_publisher/controller.py:349-371 | handling the next event, new or replayed after a broken watch, keeps the memory right for the keys the watch has touched, for those untouched, and for when the replay catches up |
| `WatchLoop.HandlingFollows` | src/cert_publisher/controller.py:314-320 | handling an event, new or replayed, keeps everything since the list accounted for |
| `CertManager.BuildCertificateSpec` | src/cert_publisher/certmanager.py:28-40 | the built spec holds exactly the three required fields and those passthrough fields the publication gives, with their values |
| `CertManager.SpecFields` | src/cert_publisher/certmanager.py:11-40 | the built spec has the Secret's name, the DNS names, the issuer and, of commonName, duration, renewBefore, usages and privateKey, those the publication has, with its values, and nothing else |
| `CertManager.EditIsDriftExactly` | src/cert_publisher/certmanager.py:64-75 | over a Certificate built before an edit, drift is found exactly when the names or the issuer changed or a field passed on has a value, not null, that it did not have; a field the edit took out is not missed |
| `CertManager.MergeReachesExactly` | src/cert_publisher/kube.py:77-82 | merging a value in makes it so exactly when it asks for no null inside an object and, at every depth, nothing extra was there |
| `CertManager.MergeTwiceIsOnce` | src/cert_publisher/kube.py:77-82 | merging the same patch again changes nothing |
| `CertManager.RepairLeavesTheRest` | src/cert_publisher/certmanager.py:64-75 | a repair leaves every unmanaged field as it was |
| `CertManager.DriftSettlesAtOnceOrNever` | src/cert_publisher/certmanager.py:64-75 | after any positive number of repairs of a drifted Certificate the drift check finds nothing exactly when no managed field asks for a null inside an object or holds, at any depth, a key the desired value lacks |
| `CertManager.ExtraKeyDriftsForever` | src/cert_publisher/certmanager.py:64-75 | a live issuerRef with one key more than the desired one is found drifted by every pass |

## Left out

- The Secret-keyed path (ssh, winrm), beyond its Certificate and drift check: the material's transport is remote I/O.
- Provisioner transports, TLS pinning and the host's own behaviour: the host is a key number and a served certificate, and each operation on it may fail before or after taking effect.
- Two publications aimed at one host: the code does not serialise by host, so the protocol has one publication per host.
- Deletion and re-creation of the publication inside the signing protocol: its requests would be collected with it. The workers and the watcher do model it.
- Finalizers, asynchronous deletion, stale reads and an effect that arrives after its process has died: the apiserver is a store that answers in order.
- The text of messages: phases, reasons, readiness and times are modelled, and messages are constants where only their wording differs.
- Several clock reads within one decision are one instant. Reads separated by an effect, and the cooldown's own read, are separate instants.
- Timestamps that cannot be parsed: a stored stamp is a whole second or absent.
- A CertificateRequest whose creation timestamp is missing: every live request has one.
- `Durations.AcceptsExactlyDurations`: digits are the ten ASCII digits, while Python's `\d` also matches other decimal digits; values are exact reals, without the rounding to microseconds and the overflow of `timedelta`.
- Waiting on the queue's condition variable: `get` is a sequence of turns under the lock, and `WorkQueue.KeyQueue.TryGet` says how long a turn may wait.
- The array layout of `heapq`: the heap is the sequence a priority queue ordered by due time and sequence number would hand out.
- The pass that `Controller.Controller.Reconcile` runs shows there by how it ends; what it does is modelled by `Reconcile`.
- Liveness under scheduling: the theorems say where a key is, not that a worker is ever scheduled to take it.
- `WatchLoop.WatchThread.Run`: models the publications watcher, and a handler that does not raise; the two watchers of owned resources run the same loop with an owner lookup for a filter. The silence clock and the pauses between attempts are not modelled, and a stop during a pause ends the loop whether or not time was left to wait.
- The stream's position is that of the last event it yielded, and publications have a generation.
- `CertManager.DriftSettlesAtOnceOrNever`: values are compared as JSON values, so Python's `True == 1` and `1 == 1.0` across types are not modelled, nor is what cert-manager or an admission webhook does to the Certificate between passes.
- Fingerprints identify certificates: hashing, PEM framing and X.509 parsing are not part of this model.
- CSR usages, the CertificateRequest's body, the health server, retries of API calls, configuration and the Helm chart: plumbing around the modelled parts.
