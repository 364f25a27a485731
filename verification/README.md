# Vauxr: the credential authority and its media buffers

Vauxr lets small voice devices, browsers and agent integrations talk to one
self-hosted server. This project models the parts of it where correctness
depends on many steps at once, and proves what every order of those steps keeps.

## What is modelled

**The credential authority.** One file, `authz.json`, holds the credentials, the owner,
the pairing requests, the lifecycle operations (rotate, revoke, recover), their
tombstones, the device bindings, the open recoveries and the integration enrollment
requests. `Authority` is that snapshot as a value, with the rules that say who is
usable, and the schema and capacity that each durable write is checked against.
`Lifecycle`, `Enrollment` and `Integration` are the services, each call a function from
a snapshot to what is left on disk and what is answered. `Transitions` puts them
together: a transaction is a chain of commits, a failure may stop it after any of them,
and a run is any sequence of transactions under a clock that never goes back. Theorems
about runs start from any snapshot that has the invariants they name, such as the empty
store (`Runs.EmptyInv`, `Guesses.EmptyGuarded`, `Withdrawals.EmptyStands`,
`Orders.EmptyHistory`). `Store` is the mutable store in the program's own form: fields
changed in place, loops over rows, then a flush that may fail before or after the
rename. Each of its methods is proved against the functions, so the theorems about runs
speak of it. `Issuance`, `Grants`, `Operations` and `Handover` follow a credential
through whole runs, from the first request to the last acknowledgement, and `Deadlines`
says within which time; `Witness` and `Corners` are concrete runs from the empty store.
`Permission` is who may do what, read off the fields of the snapshot; `Answers` and
`Orders` say exactly when a call is carried out, and that repeating one is harmless;
`Effects` says what has happened then; `Guesses` counts wrong signatures and codes;
`Withdrawals` is what a withdrawn credential takes with it, and `Confinement` that a
call touches nobody but its subject. `Registry` adds the second file, `agents.json`, and
follows both files write by write.

**Buffers between awaits.** `Startup`, `Jitter`, `TurnEnds`, `Transcript`, `Capture`
and `Reply` are classes with the fields of the original objects. A method is the code
between two awaits, so any order of calls that the preconditions allow is an
interleaving; ghost fields record what was accepted, delivered and dropped, and
`Valid()` says what every interleaving keeps. In `Jitter`, tasks wait for a lock, and the
order of acceptance is the order of obtaining it; that this is the order of arrival rests
on the lock, asyncio's, being first come first served. `FollowUp` is the follow-up tag and
what becomes of it when a reply is stripped segment by segment.

**Wyoming framing.** `Wyoming` is the streaming parser of speech events and its printer.

Two conventions: identifiers, verifiers, origins and generations are only compared for
equality and are integers (0 is the empty string); times and durations are reals.
What the environment decides is a parameter: the outcome of a write, a valid or invalid
signature, the identifier or token drawn, the digest of the code presented, the
device id derived from a key's digest, the order in which a dictionary is searched, the
resampler, whether a chunk sounds like speech, and JSON text.

## Results that correct a first expectation

* Lazy expiry and the eager sweep agree only when queued and pending operations hold no
  credential. A recovery that was delivered and then re-opened by a new pairing request
  is pending and holds one, as at the end of the run in
  `Corners.ReopenedRecoveryExpiresOnlyWhenSwept`; `Expiry.AgreesExactlyWhen` gives the
  exact condition.
* An acknowledged rotation leaves exactly one usable credential if and only if its subject
  had no other usable one than those it replaces and the one it issued
  (`Handover.ReceiptLeavesOneExactlyWhen`). That is so whenever the device was not paired
  again since the order (`Handover.RotationHandsOver`), and fails in the run of
  `Corners.RepairLeavesTwoUsable`.
* The Wyoming parser is independent of how bytes arrive exactly when no header mixes a
  positive length with a negative one (`Wyoming.SplitSafeExactlyWhenUnmixed`).
* Replacing a transcript snapshot is invisible exactly when the turn is already shown or
  both snapshots have one speaker (`Transcript.CoalescingIsInvisible`).
* The jitter buffer's timer covers held audio if and only if nothing has cut a timer off
  since the last frame was held, and only an interruption still waiting for the lock can
  have (`Jitter.OutputJitterBuffer.HeldAudioHasATimer`). Both cases occur while one waits
  (`Jitter.InterruptionLeavesAGap`, `Jitter.NextFrameClosesTheGap`).
* The pre-roll holds all of the speech that starts an utterance exactly when that speech
  is at most 4800 samples (`Capture.TrimKeeps`), which chunks of up to 1600 samples
  guarantee (`Capture.TriggerIsSent`).
* What is spoken shows a follow-up tag if and only if a tag of the reply lies across a border
  between two segments (`FollowUp.ShownExactlyWhenCut`, which `Reply.AgentTurn.WholeReplyIsSpoken`
  applies); a pause inside a tag brings that about (`Reply.PauseInsideATag`).

## Model

| member | source | states |
|---|---|---|
| LatchRuns.UsabilityIsALatch | src/vauxr/auth/store.py:353-371 | Over every run of the four services, with writes cut short anywhere: a credential usable at one moment and not at a later one is never usable again |
| LatchRuns.TombstonesStay | src/vauxr/provisioning/lifecycle.py:44-50 | Tombstones are never removed along a run |
| LatchRuns.DeadAlong | src/vauxr/provisioning/lifecycle.py:44-92 | A credential whose verifier is tombstoned, or which a finished or overdue operation withdraws, stays so at every later moment of the run |
| LatchRuns.StepLatched | src/vauxr/provisioning/lifecycle.py:101-169 | One transaction, stopped after any of its commits, revives no dead credential, drops no tombstone and undoes no activation |
| Latch.SweepKeeps | src/vauxr/provisioning/lifecycle.py:61-92 | The sweep revives nothing although it turns withdrawing operations into finished ones |
| Latch.ServeShape | src/vauxr/provisioning/integration.py:92-212 | The only things a call to the integration service may leave on disk: changed request rows, a retired credential, one activation, or one new disabled credential |
| Latch.PairShape | src/vauxr/provisioning/enrollment.py:153-267 | The only things a pairing call may leave on disk: changed request rows, an opened request, or a redemption |
| Permission.OrdersNeedTheOwner | src/vauxr/provisioning/lifecycle.py:114-127 | Rotations, revocations and recoveries are done, or leave anything beyond the sweep, only for the owner under the generation in force; whoever else orders one is refused |
| Permission.SubjectsActForThemselves | src/vauxr/provisioning/lifecycle.py:128-169 | Polls, deliveries and acknowledgements change or answer something only for a principal with a usable credential whose role and subject are the operation's; an acknowledgement also takes the credential issued |
| Permission.InquiriesOnlyAnswer | src/vauxr/provisioning/lifecycle.py:140-147 | A question about an operation changes nothing, and only its subject or the owner gets an answer |
| Permission.PairingNeedsAController | src/vauxr/provisioning/enrollment.py:117-130 | Opening a browser pairing and initiating, approving or denying any are done, change anything, or tell a right code from a wrong one only for a controller: no device, the owner alone for a browser, and with its authority still current |
| Permission.IntegrationNeedsTheOwner | src/vauxr/provisioning/integration.py:107-114 | The same for approving and denying an integration, which are the owner's |
| Permission.ApplicantsKnowTheSecret | src/vauxr/provisioning/integration.py:118-150 | Every other integration call takes the secret of the application, and opening one an active owner, this server's origin and a deadline at most five minutes off |
| Store.CredentialStore.Authenticate | src/vauxr/auth/store.py:333-343 | A token is let in if and only if a usable record carries its verifier; the identity is that record's, it is current, and a tombstoned verifier never gets in |
| Upkeep.SweepAdmissible | src/vauxr/provisioning/lifecycle.py:61-92 | From any valid snapshot the sweep's result passes the schema and the capacity check, so the sweep itself never makes a transaction fail |
| Upkeep.SweepGrantsAdmissible | src/vauxr/provisioning/integration.py:56-90 | The same for the integration sweep, which adds tombstones |
| Upkeep.MarkStaleAdmissible | src/vauxr/provisioning/enrollment.py:47-63 | The same for marking pairing requests stale |
| Upkeep.AfterSchema | src/vauxr/auth/store.py:274-324 | Every transaction, stopped anywhere, leaves a snapshot that satisfies the schema and the headroom |
| Headroom.RevocationNeverLacksRoom | src/vauxr/provisioning/lifecycle.py:171-221 | From any valid snapshot an owner's revocation with a new id that removes a liability succeeds, keeps the headroom, and leaves the subject with no unblocked verifier, live operation, recovery pointer or live pairing request |
| Headroom.OneMoreFits | src/vauxr/provisioning/lifecycle_schema.py:73-85 | The counting argument: one operation more fits when a liability, unblocked verifier or unfinished operation, goes |
| Headroom.RevokedSilences | src/vauxr/provisioning/lifecycle.py:198-213 | What a carried-out revocation leaves its subject |
| Headroom.RevokeAllDrains | src/vauxr/provisioning/lifecycle.py:171-221 | Revoking any list of subjects, in any order and at any times, leaves each of them without usable credential, unfinished operation or open recovery, on a valid snapshot |
| Headroom.OrderQuells | src/vauxr/provisioning/lifecycle.py:171-221 | One revocation of such a list quells its own subject and undoes no earlier one |
| Expiry.SweepTakesExactly | src/vauxr/provisioning/lifecycle.py:61-92 | At every later time the sweep has taken exactly the ids it retired, and given nothing back |
| Expiry.LazyExpiryAgrees | src/vauxr/auth/store.py:353-371 | If live operations match owner generation and origin, delivered ones have a deadline, and queued and pending ones hold no credential, usability is the same before and after the sweep at every later time |
| Expiry.AgreesExactlyWhen | src/vauxr/provisioning/lifecycle.py:61-92 | The sweep is invisible for all records and later times if and only if no operation it ends exposes a credential that is usable when it runs |
| Expiry.SweepIsIdempotent | src/vauxr/provisioning/lifecycle.py:61-92 | Sweeping twice at one time is sweeping once, on the whole snapshot |
| Expiry.EndedIsUnusable | src/vauxr/auth/store.py:353-371 | What an expired, revoked or overdue operation issued is unusable, and what an overdue one replaces, swept or not |
| Expiry.UsableEarlier | src/vauxr/auth/store.py:353-371 | Within one snapshot usability is only ever lost as time passes |
| Corners.ReopenedRecoveryExpiresOnlyWhenSwept | src/vauxr/provisioning/enrollment.py:350-355 | A run from the empty store, the invariant included, to a re-opened recovery on which lazy expiry and the sweep differ |
| Protocol.StepOrderly | src/vauxr/provisioning/lifecycle.py:185-213 | Every transaction keeps one unfinished operation per subject, recovery pointers that name exactly the unfinished recoveries, and undelivered rotations without a credential; finished operations never move |
| Runs.RunInv | src/vauxr/auth/store.py:230-249 | The invariant of all services holds at every moment of every run that starts from a snapshot that has it |
| Runs.EmptyInv | src/vauxr/auth/store.py:171-228 | The empty store has it |
| Runs.RunPersists | src/vauxr/provisioning/lifecycle.py:67-92 | Along a run operations are never forgotten, finished ones never change, and device bindings never change or disappear |
| Runs.PointersNameLiveRecoveries | src/vauxr/provisioning/enrollment.py:240-246 | At every moment a recovery pointer names an unfinished recovery of its own device, the only unfinished operation of it, so pairing cannot revive a finished one |
| Operations.TransactionOp | src/vauxr/provisioning/lifecycle.py:61-221 | What one transaction may do to an operation: nothing if it is over or in time, end it in the sweep if it is not in time, or move it one step by the call that stands for the step; a new one is the owner's order and records when, where and under which owner it was given |
| Operations.LiveIsInTime | src/vauxr/provisioning/lifecycle.py:61-85 | After every lifecycle or pairing transaction of a run the operations that are not over are in time, of the owner generation and origin in force |
| Operations.HandledAsOrdered | src/vauxr/provisioning/lifecycle.py:198-203 | Whatever a call does to an operation in a run, it does within a day of the order of a rotation and five minutes of that of a recovery, at the origin and under the owner generation of the order |
| Operations.AcknowledgedAfterCeremony | src/vauxr/provisioning/lifecycle.py:148-169 | In every run an acknowledged rotation or recovery was ordered by the owner, then delivered, then acknowledged by its subject with the very credential delivered: a rotation within five minutes of its delivery, a recovery within five minutes of its order |
| Orders.OrderCarriedOutExactlyWhen | src/vauxr/provisioning/lifecycle.py:171-197 | An order with a new id is done if and only if the owner gives it, the subject has a credential, the history has room or a liability goes, a rotation finds no unfinished operation and a usable credential, and a recovery a bound device: the schema never refuses one |
| Orders.RepeatedOrderIsHarmless | src/vauxr/provisioning/lifecycle.py:174-180 | At every later moment of a run an order under a known id does nothing beyond the sweep, and is answered as done if and only if it is the same order |
| Orders.HistoryIsShort | src/vauxr/provisioning/lifecycle.py:185-192 | At every moment of a run at most 1024 operations on record are not revocations |
| Handover.CredentialsAreMinted | src/vauxr/provisioning/lifecycle.py:160-169 | A transaction adds at most one credential, and only by delivering a pending rotation, redeeming an approved pairing request, or delivering an approved integration request; none is removed or renamed |
| Handover.DeliveryAddsOne | src/vauxr/provisioning/lifecycle.py:160-169 | Delivering a rotation leaves usable exactly what was usable and the new credential, which is new |
| Handover.AckTakesExactly | src/vauxr/provisioning/lifecycle.py:148-159 | An acknowledgement takes away exactly the replaced credentials |
| Handover.AcknowledgedAloneExactlyWhen | src/vauxr/provisioning/lifecycle.py:148-159 | The acknowledgement leaves the acknowledged credential as the only usable one of its subject if and only if no other usable one lay outside those the operation replaces |
| Handover.AcknowledgedAloneIsLeft | src/vauxr/provisioning/lifecycle.py:148-159 | If the operation covers its subject, the acknowledged credential is then the subject's only usable one |
| Handover.ReceiptLeavesOneExactlyWhen | src/vauxr/provisioning/lifecycle.py:148-159 | The same at every accepted acknowledgement of every run |
| Handover.RotationCovers | src/vauxr/provisioning/lifecycle.py:198-213 | From the order to the end of a rotation it covers its subject, in every run in which the device is not paired again |
| Handover.RotationHandsOver | src/vauxr/provisioning/lifecycle.py:148-221 | In every run: once a rotation is ordered, its device is not paired again and the acknowledgement is accepted, a credential of the subject is usable if and only if it is the acknowledged one |
| Corners.RepairLeavesTwoUsable | src/vauxr/provisioning/lifecycle.py:198-200 | A run from the empty store in which the device is paired again between order and acknowledgement, and two credentials stay usable |
| Handover.MissedDeadlineIsFinal | src/vauxr/auth/store.py:362-370 | If the deadline of a delivered operation passes first, neither the issued nor any replaced credential is ever usable again in the run |
| Issuance.RedeemedAfterCeremony | src/vauxr/provisioning/enrollment.py:193-258 | In every run a redeemed request was first proved, then initiated, then approved, at three earlier transactions in that order, the last two by controllers with current authority who are still the ones it names |
| Issuance.EntersByCall | src/vauxr/provisioning/enrollment.py:193-267 | In every run each state that a request moves to is entered by the call that stands for it, with its signature or code; who endorses or denies is a controller at that moment, and is the one recorded |
| Issuance.BrowserOpenedByOwner | src/vauxr/provisioning/enrollment.py:175-178 | A browser pairing is opened in the owner's name alone |
| Issuance.RedeemedOnce | src/vauxr/provisioning/enrollment.py:234-257 | A request is redeemed at most once in a run |
| Issuance.MintedByOneCeremony | src/vauxr/provisioning/enrollment.py:193-258 | Each credential minted by pairing stems from one such ceremony, and no second credential from the same request |
| Issuance.RedemptionIsAuthorized | src/vauxr/provisioning/enrollment.py:101-115 | A redemption that mints happens unexpired, on the request's origin and owner generation, with initiator and approver both still current, on a device not bound to another key |
| Issuance.FinishedIsFinal | src/vauxr/provisioning/enrollment.py:47-63 | Stale and all other terminal requests never change again and never come back |
| Issuance.OnePendingAlways | src/vauxr/provisioning/enrollment.py:345-349 | At every moment of a run at most one unexpired request of a device id is unfinished |
| Issuance.OneKeyPerDevice | src/vauxr/provisioning/enrollment.py:279-306 | Over a run two pairings issued credentials under one device id if and only if their requests carried the same key and kind, whatever ids digests derive |
| Guesses.RefusedExactlyWhen | src/vauxr/provisioning/enrollment.py:132-151 | A pairing call is refused as an invalid proof if and only if its signature is wrong, or a controller presents a wrong code in the phase that takes one |
| Guesses.AttemptsAreMisses | src/vauxr/provisioning/enrollment.py:132-141 | In every run the count kept on a request is the number of its wrong signatures and codes in the whole run |
| Guesses.SpentIsFailed | src/vauxr/provisioning/enrollment.py:132-141 | At every moment of a run a request with five of them is failed |
| Guesses.AtMostFourMisses | src/vauxr/provisioning/enrollment.py:132-141 | A request that has not ended was sent at most four wrong ones, however the run went |
| Guesses.MistypedExactlyWhen | src/vauxr/provisioning/integration.py:179-189 | An integration call is refused for its code if and only if the owner presents a wrong one for a request still open to approval |
| Guesses.AttemptsAreWrongCodes | src/vauxr/provisioning/integration.py:179-189 | While an integration request is there, its count goes up by exactly the wrong codes presented |
| Guesses.AtMostFourWrongCodes | src/vauxr/provisioning/integration.py:179-189 | One that has not ended has seen at most four since it was opened |
| Deadlines.StaleExactlyWhen | src/vauxr/provisioning/enrollment.py:47-63 | Marking stale ends exactly the unfinished, unexpired requests whose owner generation, origin, initiator or approver no longer stands, and changes nothing else |
| Deadlines.HandledAsOpened | src/vauxr/provisioning/enrollment.py:101-115 | Whatever a call does to a pairing request in a run, it does within five minutes of its opening, at the same origin, under the same owner generation and with its actors still current |
| Deadlines.SweptGrantExactlyWhen | src/vauxr/provisioning/integration.py:56-83 | The integration sweep ends exactly the unfinished requests that are late, moved or tombstoned, and the completed ones whose agent is tombstoned throughout |
| Deadlines.HandledAsApplied | src/vauxr/provisioning/integration.py:118-150 | Whatever a call does to an integration request in a run, it does before the deadline named by the application, at the same origin and under the same owner generation |
| Answers.OpenedExactlyWhen | src/vauxr/provisioning/enrollment.py:308-359 | A pairing request is opened if and only if the origin and owner are there, a browser's is the owner's, fewer than 64 unexpired requests are kept, the key's device is nobody else's and has no unfinished request |
| Answers.PairCallDoneExactlyWhen | src/vauxr/provisioning/enrollment.py:193-267 | Every other pairing call is done if and only if its phase, signature or code, controller and device ownership are right: nothing else refuses it |
| Answers.CommandDoneExactlyWhen | src/vauxr/provisioning/lifecycle.py:128-169 | A poll, question, delivery or acknowledgement is done if and only if what it needs of principal and operation holds |
| Answers.AppliedExactlyWhen | src/vauxr/provisioning/integration.py:118-150 | A new integration request is opened if and only if origin, owner, deadline and the two limits allow it |
| Answers.GrantCallDoneExactlyWhen | src/vauxr/provisioning/integration.py:151-212 | Every call about an existing one is done if and only if its secret, code, credential, owner and phase are right |
| Answers.RepeatedGrantCallIsHarmless | src/vauxr/provisioning/integration.py:151-196 | Applying again, and acknowledging, denying or withdrawing what already was, changes nothing beyond the sweep |
| Answers.RepeatedReceiptIsHarmless | src/vauxr/provisioning/lifecycle.py:148-152 | Nor does acknowledging a rotation again, which is answered as done to the same credential alone |
| Effects.LifecycleDone | src/vauxr/provisioning/lifecycle.py:128-221 | A lifecycle call answered as done has had its effect: the operation is in the state asked for, the credential issued is there, and what is withdrawn is tombstoned and disabled |
| Effects.PairingDone | src/vauxr/provisioning/enrollment.py:193-267 | Likewise a pairing call: the request is in the state asked for; a redemption leaves the device the new credential, no other, its key bound and its recovery delivered |
| Effects.IntegrationDone | src/vauxr/provisioning/integration.py:118-212 | Likewise an integration call: the request is in the state asked for, what was issued is there disabled, what was acknowledged is enabled, what was ended is tombstoned |
| Effects.RefusalsChangeNothing | src/vauxr/auth/store.py:230-249 | A refused call leaves nothing beyond the upkeep, wrong signatures and codes apart |
| Withdrawals.ActorsAlwaysStand | src/vauxr/provisioning/lifecycle.py:52-59 | At every moment of a run no unfinished pairing request is in the name of a tombstoned credential |
| Withdrawals.EndedAlwaysRetired | src/vauxr/provisioning/integration.py:85-90 | At every moment of a run the credential of an integration request that ended uncompleted is tombstoned |
| Confinement.CallConfined | src/vauxr/provisioning/lifecycle.py:171-221 | Beyond the upkeep a call changes credentials, tombstones, operations, bindings, recoveries and integration requests of its subject alone |
| Confinement.OthersUnaffected | src/vauxr/provisioning/lifecycle.py:198-213 | In every run a call leaves every credential of everybody else as it is, and as usable at every later time |
| Confinement.OtherRequestsStay | src/vauxr/provisioning/lifecycle.py:205-218 | An order or acknowledgement ends only pairing requests of the device it is about, or in the name of a credential of its subject |
| Grants.CompletedAfterCeremony | src/vauxr/provisioning/integration.py:158-210 | In every run a completed integration request was approved by the owner with the right code, then delivered to who knew the secret, at two earlier transactions, and is completed by the one that presents the delivered credential as saved |
| Grants.UsableWasAcknowledged | src/vauxr/provisioning/integration.py:158-210 | Whenever the credential of an integration request is usable, the owner's approval, the delivery and the acknowledged saving lie in the run before, in that order |
| Grants.IssuedOnce | src/vauxr/provisioning/integration.py:201-210 | A request issues at most one credential in a run |
| Witness.PairingHappens | src/vauxr/provisioning/enrollment.py:153-267 | A concrete run from the empty store through proof, initiation, approval and redemption to a usable credential: the hypotheses of the theorems about runs are met by a run that issues something |
| Identity.StepIdentified | src/vauxr/provisioning/enrollment.py:294-306 | Every transaction keeps bindings injective, requests in agreement with bindings and with each other, and changes no binding |
| Identity.OpenedIdentified | src/vauxr/provisioning/enrollment.py:308-359 | The id chosen for a new request agrees with every row and binding that carries its key |
| Identity.RedeemedIdentified | src/vauxr/provisioning/lifecycle.py:223-247 | A redemption binds the device to its key and keeps the correspondence one-to-one |
| Store.CredentialStore.Flush | src/vauxr/auth/store.py:274-324 | Whether a write succeeds, fails before the rename or after it: the file holds the whole old or whole new snapshot, memory equals the file, and the schema holds |
| Store.CredentialStore.RetireIds | src/vauxr/provisioning/lifecycle.py:44-50 | The in-place loop tombstones and disables exactly the named credentials |
| Store.CredentialStore.InvalidateApprovalsOf | src/vauxr/provisioning/lifecycle.py:52-59 | The in-place loop makes stale exactly the unfinished requests that a withdrawn credential initiated or approved |
| Store.CredentialStore.SweepOperations | src/vauxr/provisioning/lifecycle.py:61-85 | One pass over the operations ends the overdue ones and retires what they expose, in any order of the pass |
| Store.CredentialStore.Sweep | src/vauxr/provisioning/lifecycle.py:61-92 | The sweep in place refines the sweep function, and a failed write leaves the old or the swept snapshot |
| Store.CredentialStore.Order | src/vauxr/provisioning/lifecycle.py:171-221 | Rotate, revoke and recover in place: state and answer are those of the transaction, cut at a commit if a write fails |
| Store.CredentialStore.Poll | src/vauxr/provisioning/lifecycle.py:128-139 | The subject's poll, likewise |
| Store.CredentialStore.Deliver | src/vauxr/provisioning/lifecycle.py:160-169 | Delivery, likewise |
| Store.CredentialStore.Acknowledge | src/vauxr/provisioning/lifecycle.py:148-159 | The save acknowledgement, likewise |
| Store.CredentialStore.MarkStale | src/vauxr/provisioning/enrollment.py:47-63 | The in-place loop marks exactly the requests whose authority has moved |
| Store.CredentialStore.FindDevice | src/vauxr/provisioning/enrollment.py:294-306 | The search for a key's device id: bound id first, then a pending request's, then the derived one |
| Store.CredentialStore.Ask | src/vauxr/provisioning/enrollment.py:308-359 | Opening a request refines the transaction, refusals and re-opened recoveries included |
| Store.CredentialStore.Prove | src/vauxr/provisioning/enrollment.py:202-209 | The proof of the key, likewise |
| Store.CredentialStore.Confirm | src/vauxr/provisioning/enrollment.py:210-233 | Initiation and approval, likewise |
| Store.CredentialStore.Redeem | src/vauxr/provisioning/enrollment.py:234-257 | Redemption, likewise, with the recovery it completes |
| Store.CredentialStore.Settle | src/vauxr/provisioning/enrollment.py:258-267 | Withdrawal and denial, likewise |
| Store.CredentialStore.Fail | src/vauxr/provisioning/enrollment.py:132-141 | A failed proof costs an attempt and the fifth the request |
| Store.CredentialStore.SweepGrants | src/vauxr/provisioning/integration.py:56-90 | The in-place sweep of integration requests refines the function although it tombstones while it iterates |
| Store.CredentialStore.Apply | src/vauxr/provisioning/integration.py:118-155 | An integration's request, likewise, repeats and capacity included |
| Store.CredentialStore.Issue | src/vauxr/provisioning/integration.py:201-210 | Delivery of a disabled credential, likewise |
| Store.CredentialStore.Activate | src/vauxr/provisioning/integration.py:158-178 | The save acknowledgement commits completion and activation together |
| Store.CredentialStore.Approve | src/vauxr/provisioning/integration.py:179-190 | Approval by code, likewise, attempts included |
| Store.CredentialStore.End | src/vauxr/provisioning/integration.py:191-200 | Denial and withdrawal, likewise, retiring what was issued |
| Registry.FilesStayCovered | src/vauxr/provisioning/integration.py:171-178 | After any number of a transaction's writes to the two files, every agent with a usable credential and completed enrollment has its row in agents.json |
| Registry.TriedCovers | src/vauxr/auth/store.py:305-320 | The same when a write fails and the failure itself retires rows against the snapshot that is then on disk |
| Registry.AuthorityIsAlwaysListed | src/vauxr/agents/registry.py:255-273 | The same over any number of transactions, crashes and failed writes; and if every row with an agent's id is an integration row to begin with, it stays so |
| Registry.RegistryStaysValid | src/vauxr/agents/registry.py:212-223 | Registering and retiring keep ids unique and the selection listed, and give no agent's id to a row that is not an integration row; registering keeps the selection |
| Registry.RetiresExactly | src/vauxr/agents/registry.py:255-273 | Retiring drops exactly the integration rows without completed enrollment or usable credential, keeps every other row, and clears the selection only with its row |
| Registry.ListedExactlyWhenAuthorized | src/vauxr/agents/registry.py:255-273 | Once a transaction has retired agents, an agent is listed if and only if it has a completed enrollment and a usable credential |
| Registry.OrdinaryRowsStay | src/vauxr/agents/registry.py:212-273 | No write of any transaction touches a row that is not an integration's, or its selection |
| Wyoming.ParseEvents | src/vauxr/speech/wyoming_protocol.py:31-80 | The one-pass parser returns every complete event and the leftover that the frame-by-frame definition does, with Python's clamping slices |
| Wyoming.BadLineIsSkipped | src/vauxr/speech/wyoming_protocol.py:45-53 | A line that is no header is skipped and parsing goes on with the next |
| Wyoming.FrameIsOneEvent | src/vauxr/speech/wyoming_protocol.py:55-80 | A header followed by the data and payload it announces is one event: the data block, or the header's data if there is none or it is not JSON, and the payload if there is one; and parsing goes on after it |
| Wyoming.PartOfAFrameWaits | src/vauxr/speech/wyoming_protocol.py:59-62 | Any proper part of a frame gives no event and is kept whole |
| Wyoming.SplitIsInvisible | src/vauxr/speech/wyoming_protocol.py:31-80 | Parsing a prefix and resuming with its leftover is parsing the whole |
| Wyoming.AnySplitParsesAlike | src/vauxr/speech/wyoming_protocol.py:31-80 | For any cutting of a stream into pieces the events and the final leftover are those of one parse |
| Wyoming.SplitSafeExactlyWhenUnmixed | src/vauxr/speech/wyoming_protocol.py:55-76 | Split independence for all streams holds if and only if no header line has one positive and one negative length |
| Wyoming.EncodedParses | src/vauxr/speech/wyoming_protocol.py:21-28 | Printing a list of events and parsing it returns the list, an empty payload read as none, with nothing left over |
| Wyoming.EncodeThenFeed | src/vauxr/speech/wyoming_protocol.py:21-80 | The same when the printed bytes arrive in any pieces |
| Startup.ChunksCarryThePcm | src/vauxr/realtime/startup.py:110-115 | The 20 ms chunks carry the PCM exactly, each full but the last |
| Startup.StartupAudio.Cutover | src/vauxr/realtime/startup.py:98-130 | For every interleaving: what the consumer was handed is a prefix of all WS sound then early RTP, and once drained all of it followed by live frames; the reservation is exact and within 15 s until the drain, and zero after it at 16 kHz |
| Startup.StartupAudio.AppendWs | src/vauxr/realtime/startup.py:55-63 | A WS frame is kept exactly when in sequence, non-empty, even and within the reservation; otherwise the wake fails with the right code and once |
| Startup.StartupAudio.AppendRtp | src/vauxr/realtime/startup.py:65-73 | The startup owns a frame unless drained; it keeps it exactly when it fits |
| Startup.StartupAudio.FinishWs | src/vauxr/realtime/startup.py:75-83 | The segment is complete only with the right wake and count |
| Startup.StartupAudio.Consumed | src/vauxr/realtime/startup.py:111-130 | Each return of the consumer hands over exactly one more frame or releases live input; a closed wake hands over nothing |
| Startup.StartupAudio.Process | src/vauxr/realtime/startup_input.py:13-27 | Live audio passes through in order once drained, and never before |
| Startup.EvenCostAdds | src/vauxr/realtime/startup.py:48-53 | The rounded 24 kHz cost of even-length 16 kHz PCM is exact and adds up over its pieces |
| Jitter.OutputJitterBuffer.NothingLostOrReordered | src/vauxr/realtime/output_buffer.py:37-109 | In the order in which tasks obtain the lock: output serial numbers always rise, so nothing accepted before an interruption follows it; with no interruption on its way everything accepted since the last one has left, in order and once, or is held |
| Jitter.OutputJitterBuffer.HeldAudioHasATimer | src/vauxr/realtime/output_buffer.py:93-109 | With the lock free and audio held in an open buffer, less than the lead is held; the pending timer is one of this epoch or none; and it is there if and only if nothing has cut a timer off since the last frame was held, as always when no interruption is on its way |
| Jitter.DenseIsAll | src/vauxr/realtime/output_buffer.py:37-44 | Rising serial numbers that fill a range are the whole range in order |
| Jitter.OutputJitterBuffer.AudioEnters | src/vauxr/realtime/output_buffer.py:90-109 | Audio passes, is held, or lets the held frames out, by priming and lead |
| Jitter.OutputJitterBuffer.InterruptEnters | src/vauxr/realtime/output_buffer.py:63-73 | An interruption drops all held audio and is pushed before anything accepted later |
| Jitter.OutputJitterBuffer.TimerEnters | src/vauxr/realtime/output_buffer.py:46-56 | A timer flushes only in its own epoch and an open buffer, even a cancelled timer that fires |
| Jitter.InterruptionLeavesAGap | src/vauxr/realtime/output_buffer.py:63-68 | A reachable state with audio held, the lock free and no timer |
| Jitter.NextFrameClosesTheGap | src/vauxr/realtime/output_buffer.py:90-109 | A reachable state with an interruption on its way, audio held and a timer of the new epoch |
| TurnEnds.RealtimeSession.EndsInOrder | src/vauxr/realtime/session.py:913-948 | For every interleaving: ends leave in completion order, none before its own media was acknowledged, media authority is held until then or a successful close, and each end sent carries its verdict or the barge-in's; each heard turn without media takes a silence of its own |
| TurnEnds.RealtimeSession.Drain | src/vauxr/realtime/session.py:913-948 | The drain loop sends exactly the ready head when the peer owns control, and only consumes its own media when it does not |
| TurnEnds.RealtimeSession.Idle | src/vauxr/realtime/session.py:897-911 | Silence never makes an agent turn's end ready; it credits one turn without media exactly when one that was heard is waiting and nothing is being spoken |
| TurnEnds.RealtimeSession.NotifyEnded | src/vauxr/realtime/session.py:1022-1035 | An abnormal end is told once, clears the queue and keeps media authority |
| TurnEnds.RealtimeSession.TeardownsReturned | src/vauxr/realtime/session.py:1037-1065 | Media authority is given up only by a successful teardown |
| TurnEnds.RealtimeSession.BeginTurn | src/vauxr/realtime/session.py:773-787 | All media of a session belongs to one agent |
| TurnEnds.OneShot | src/vauxr/realtime/session.py:932-948 | Without a new barge-in the next end carries its own verdict |
| TurnEnds.InterruptedMeans | src/vauxr/realtime/session.py:730-739 | The flag is set if and only if a barge-in has had no end sent after it |
| Transcript.TranscriptRelay.Enqueue | src/vauxr/realtime/transcript.py:32-52 | A snapshot replaces only an unfinished tail of its own turn, else is appended, else the relay fails once; never more than 64 wait |
| Transcript.TranscriptRelay.CoalescedButComplete | src/vauxr/realtime/transcript.py:32-78 | Until failure or close: accepted = sent + in flight + pending + coalesced, no final is lost or reordered, and the browser's folded turn list is that of all accepted messages |
| Transcript.ShownMeans | web-client/src/hooks/useRealtime.ts:42-53 | For every log the folded list shows each turn once, in the order of first messages, in the role of its first and with the text and finality of its last message up to a final one |
| Transcript.CoalescingIsInvisible | web-client/src/hooks/useRealtime.ts:42-53 | Replacing an unfinished snapshot changes nothing in the browser if and only if the turn is known or the speakers agree |
| Transcript.TranscriptRelay.Returned | src/vauxr/realtime/transcript.py:61-78 | The worker delivers in order, one at a time, and a failed send gives up the rest |
| Transcript.OneTurnTwoSpeakers | web-client/src/hooks/useRealtime.ts:45-53 | Two speakers under one turn id: the folded lists differ |
| Capture.PcmCaptureProcessor.Process | web-client/public/pcm-capture.worklet.js:10-28 | The posted chunks, all of the chunk size, and the partial buffer are exactly the samples taken so far |
| Capture.SpeechSegmenter.Push | web-client/src/hooks/speechSegmenter.ts:11-35 | The endpointer's fields and events are those of the step function on the chunks pushed |
| Capture.AlwaysTracked | web-client/src/hooks/speechSegmenter.ts:16-35 | For all chunks: starts and ends alternate, the pre-roll is the longest fitting tail of the idle chunks, the voiced count is that of the speech at their end, and during an utterance quiet and duration are the silence at the end and the whole of what was heard since its trigger |
| Capture.UtterancesAreRuns | web-client/src/hooks/speechSegmenter.ts:16-35 | For all chunks: each utterance sent is a contiguous run of them, apart from the one before, starting where the trimmed pre-roll does; it is closed by the first chunk after its trigger that makes the silence at the end 700 ms or the whole 30 s, and is open as long as none has |
| Capture.TrimKeeps | web-client/src/hooks/speechSegmenter.ts:18-19 | Trimming keeps a tail if and only if it fits in 4800 samples |
| Capture.TrimTwice | web-client/src/hooks/speechSegmenter.ts:18-19 | Trimming after every chunk is trimming once |
| Capture.TriggerIsSent | web-client/src/hooks/speechSegmenter.ts:20-26 | With chunks of at most 1600 samples the whole speech that triggers an utterance is sent |
| FollowUp.NoTagRemains | src/vauxr/pipeline.py:36-57 | No stripped text contains the follow-up tag, for every text |
| FollowUp.UntaggedIsKept | src/vauxr/pipeline.py:56-57 | Text without the tag is unchanged, and stripping is idempotent |
| FollowUp.StripReplaces | src/vauxr/pipeline.py:36-57 | Each tag, with all the whitespace around it, becomes one space and nothing else changes, for every text |
| FollowUp.TrimmedIsInside | src/vauxr/pipeline.py:60-61 | Trimming takes whitespace off both ends and nothing else |
| FollowUp.ResolvedReply | src/vauxr/pipeline.py:60-73 | In every mode the recorded reply is the same text, without tag or loose whitespace; the mic stays open always, never, or in automatic mode exactly for a tag or a question |
| FollowUp.CutInTwo | src/vauxr/pipeline.py:278-288 | Two stripped pieces together show a tag if and only if the first ends and the second begins with the two parts of one, neither empty |
| FollowUp.ShownExactlyWhenCut | src/vauxr/pipeline.py:278-306 | However a text is cut, its stripped pieces together show a tag if and only if a tag of the text lies across a border |
| Reply.AgentTurn.WholeReplyIsSpoken | src/vauxr/pipeline.py:278-306 | For every interleaving of deltas, pauses and the worker: a completed turn's segments concatenate to the reply, and the worker of an un-aborted turn has attempted each, stripped, once and in order; no segment shows the tag, and all together do if and only if one of the reply lies across a border |
| Reply.IdleSegmenter.Flush | src/vauxr/idle_segmenter.py:96-107 | A pause hands on all text gathered since the last segment, or nothing |
| Reply.IdleSegmenter.End | src/vauxr/idle_segmenter.py:62-78 | The end hands on the rest and stops the timer |
| Reply.SegmentQueue.Step | src/vauxr/segment_queue.py:48-83 | The worker never sleeps with an item queued or after close, and takes items in order |
| Reply.SegmentQueue.Spoken | src/vauxr/segment_queue.py:79-86 | A failed attempt loses no other segment |
| Reply.PauseInsideATag | src/vauxr/pipeline.py:278-288 | A pause at any place inside the tag, in a reply that is the tag alone, has both halves of it spoken |

## Left out

- HTTP handlers, cookies, CSRF, TLS, rate limiting (`enrollment.py:79-88`) and the `status` and `list` answers: a call that only reads answers `Done` or its refusal, not the text.
- Ed25519, SHA-256, HMAC, random tokens and JSON text: inputs, or parameters with stated hypotheses. Ids drawn by a transaction are new where a theorem says so (`Issuance.FreshIds`); elsewhere the schema check refuses a repeated id.
- A credential's generation is a digest of its verifier; the verifier itself stands for it.
- fsync, file locks and temporary files: a write is done, fails before the rename, or fails after it. Loading a file that fails validation raises in the original and is not modelled.
- One timestamp per transaction; the original reads the clock several times within one.
- Public key, display name, server id, nonce and creation time fields, which no modelled rule reads. Display-name and hex-format checks are not modelled.
- The start-up migration `Enrollment.initialize`, owner claim and login: the owner enters as any change of owner mode and generation (`OwnerTx`).
- `Store.CredentialStore` keeps the fields of the four nested dictionaries flat. When marking stale requests writes, the original then works on the stored copy; the one visible effect, which request pool a key's id is looked up in, is a parameter (`aliased`).
- agents.json is modelled on values: the module globals, `activate`, `remove`, `_decode` and `_encode` are not. A failed write of agents.json leaves it as it was and ends the transaction there, like a crash.
- Wyoming headers whose lengths are not numbers raise in the original and are not modelled; a header's type is text. The TCP clients that carry the leftover are the function `FeedAll`.
- The resampler is any function, and its failure an outcome; frames carry bytes and a rate only.
- Frames that the jitter buffer passes without taking its lock (upstream, other kinds, empty audio) are not part of its order. Durations are exact reals, not floating point.
- The session's VAD profiles, transcripts, device state, inactivity backstop and cold pre-roll. Control ownership is an input. Turns without media use the bot-idle credits as the original does.
- Transcript send timings and their metrics, and the browser's trimming of retained history to 6000 characters across turns; each text is cut to its last 6000 characters on both sides.
- Samples to 16-bit conversion in the browser, and the RMS threshold: whether a chunk is speech is any predicate.
- Speech synthesis itself, the TTS error message, and the agent timeout's own messages; an agent error, a timeout and a device abort are one failure step.
- FollowUp.Resolve: whitespace is any predicate that holds of a space and of no tag character.
