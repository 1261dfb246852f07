# Verification of agency's protocols and codecs

A Dafny model of the stateful core of `agency`, with proofs of what that core promises. Each
module follows one source file or one protocol. Code that changes things step by step is a class
with the source's fields, whose methods are proved equal to functions of the old state; the
promises are proved about those functions and about the machines built from them, over every
schedule. Check everything with `dafny verify dfyconfig.toml`.

Messages, replies and outputs are sequences of code points, lone surrogates included (`Utf8`,
`Texts`).

**Owner admission** (`AdmissionStore`, `AdmissionInvariants`, `AdmissionRequests`,
`AdmissionProtocol`, `AdmissionSafety`, `AdmissionTheorems`, `AdmissionMeaning`, `AdmissionMetering`,
`AdmissionUndisturbed`, `OwnerService*`, and the classes in `OwnerPilotStore`, `OwnerBudgetAdapter`,
`OwnerPilotService`). A turn is a row in SQLite that goes
from ADMITTED through RUNNING to one of five terminal states. Two in-memory sets and a dictionary
of leases guard it. A store call is two steps: its body, which changes the sets at once, and its
COMMIT or roll-back, which decides about the database only. The budget adapter and the service are
cut at every `await`; revoke, close, fence, cancellation, other callers, crashes and restarts may
fall anywhere in between. Time is an input that need not even increase; the identifiers a call
draws are inputs too. What each transaction answers and writes is stated over its rows alone
(`AdmissionMeaning`), what the quota backend has to do with it over a ledger of its acceptances
(`AdmissionMetering`), and how a turn ends over a chronicle of what its execution reached and raised
(`OwnerServiceSettling`).

**Peer envelopes** (`Utf8`, `Json`, `CanonicalJson`, `TextCodecs`, `PeerEnvelope`,
`PeerEnvelopeTheorems`, `PeerEnvelopeSigning`, `PeerEnvelopeMeaning`). UTF-8, the compact JSON printer and the parser
(RFC 8259), base64 and hex are written out. NFC, SHA-256 and Ed25519 (RFC 8032) are parameters:
NFC is idempotent and leaves ASCII alone, digests and keys have 32 bytes, signatures 64, and a key
verifies what it signed. Keys sort by UTF-8 bytes, which is not the UTF-16 order of section 3.2.3
of RFC 8785.

**Thread context** (`ButlerThreads`, `ThreadContext`, `ThreadSummary`), **Telegram polling**
(`TelegramPolling`, `TelegramDelivery`, `TelegramAnswers`), **lifecycles** (`Lifecycle`, `AgentFactory`, `PromptLibrary`), and the smaller
machines `CircuitBreaker`, `AuditClaims`, `ScopeGlob`, `PolicyEngine`, `Verifier`, `Assessment`.

## Where the code differs from what is said of it

- The breaker's description admits one probe at a time. A late result from before the epoch frees
  a slot: the limit holds on every trace exactly when one success closes the circuit
  (`ProbeLimitHoldsExactly`, with a run that breaks it otherwise, `LimitIsBreached`). A probe whose
  caller is cancelled keeps its slot, which can starve the bridge for good under every
  configuration (`StarvedForever`, `StarvationIsReachable`), and only so (`StarvationBegins`,
  `NoStarvationWithoutCancellation`).
- A blueprint revocation that commits and then meets a kernel error other than an unknown id
  leaves its agent in the runtime pool, and revoking again does not help
  (`PoolAgreesUnlessStranded`, `StrandingIsReachable`, `StrandedStays`). The repository's own kernel
  registry raises nothing but the unknown id (`src/agency/kernel/registry.py:173-185`), so this takes
  another registry passed to the factory.
- A glob's `*` does not cross a newline and a final newline is accepted unasked. No translated
  scope is exact on all targets (`OnlyStarIsExact`); all are on targets without newlines
  (`ScopeMeaning`).
- The human gate counts an approval that has expired (`LapsedApprovalStillCounts`); that changes a
  decision exactly when every approval has lapsed (`LapsedCountsOnlyAtTheGate`). Revoking a
  permission can allow what was denied (`RevokingCanWiden`), exactly when it uncovers
  (`RevokingWidensExactly`).
- A summary that is cut has 2001 characters, one more than the cap: exactly when its lines exceed
  it (`SummaryIsShort`, with an input in `SevenLongMessagesExceedTheCap`).
- Completed output with a lone surrogate has no assessment at all: the strict encoding raises
  before any validator runs (`LoneSurrogateIsRefused`).
- An audit intent without a call id can never be settled and refuses every later claim
  (`SettlingIsByCallId`).
- Pruning the Telegram duplicate set keeps nothing, since everything in it has been passed
  (`PruningEmpties`); it changes no decision.

## Model

| member | source | states |
|---|---|---|
| AdmissionTheorems.OwnedLeaseIsActive | src/agency/admission/budget.py:102-123 | In every reachable world, if the adapter says it owns a lease then the durable row is an ADMITTED or RUNNING turn that is not cancel-requested, has the lease's owner, request id and an unexpired deadline; and the same turn is active in any transaction about to commit |
| AdmissionTheorems.ThreadHoldsItsCompletedTurns | src/agency/admission/store.py:641-677 | In every reachable world a thread's messages are exactly the (user, assistant) pairs of its COMPLETED turns, in commit order, each once: user text from the admitted input, assistant text from the staged result |
| AdmissionTheorems.NothingIsPublishedAfterTheFence | src/agency/admission/store.py:168-206 | Once publication is fenced, no schedule of this process adds a message, not even the COMMIT of a turn whose transaction was already open |
| AdmissionTheorems.ClaimedAtMostOnce | src/agency/admission/store.py:396-428 | Over the whole history, through failed commits, quota failures, crashes and restarts, no turn passes the claim guard twice |
| AdmissionTheorems.OldTurnsCannotBeClaimed | src/agency/admission/store.py:413-421 | A turn this process did not itself admit and commit can never be claimed, so nothing old is claimable after a restart |
| AdmissionTheorems.SpentClaimsStaySpent | src/agency/admission/store.py:403-428 | A claim whose transaction rolled back is spent all the same: the turn cannot be claimed again |
| AdmissionTheorems.RecoverySettlesEverything | src/agency/admission/store.py:741-758 | Recovery makes every interrupted turn UNCERTAIN and blocked, and leaves every other row exactly as it was |
| AdmissionTheorems.TerminalRowsAreFrozen | src/agency/admission/store.py:512-578 | Over every further run a terminal row never changes in any column; input, first staged result and the cancel flag are never lost |
| AdmissionTheorems.StepsAreLegal | src/agency/admission/store.py:512-560 | Every step moves every row along at most one edge of the state graph |
| AdmissionTheorems.StatesMeanWhatTheySay | src/agency/admission/store.py:722-736 | In every reachable world: at most 8 model and 4 tool attempts; ADMITTED rows have no attempts, no result and no cancel flag; CANCELLED and DENIED rows have no attempts; COMPLETED rows were never cancel-requested, have a result and were completed inside the 120 s deadline |
| AdmissionTheorems.GrantsAreCounted | src/agency/admission/budget.py:234-277 | For each turn and kind of call, the number of granted reservations never exceeds the durable attempts, which never exceed 8 (tools: 4) |
| AdmissionTheorems.GrantsNeedTheLease | src/agency/admission/budget.py:223-277 | A call is granted only at an instant when its lease is still owned (not revoked, not blocked, before its deadline, adapter and store open) and its durable row is active, however long it was in flight |
| AdmissionTheorems.RunIsLater | src/agency/admission/store.py:184-206 | Over every run the database only moves forward: rows along their life, messages and events by appending, threads and subjects never altered |
| AdmissionSafety.NextKeeps | src/agency/admission/budget.py:51-305 | The protocol invariant (durable rows, in-memory sets, claims, leases, metering) is kept by every step: transaction bodies, COMMIT, roll-back, every await of every adapter call, revoke, close, fence, crash |
| AdmissionSafety.RunKeeps | src/agency/admission/store.py:82-206 | The invariant holds after every schedule |
| AdmissionInvariants.PerformKeeps | src/agency/admission/store.py:208-214 | Every transaction body keeps the database invariant (row checks, both unique indexes, transcript = log of commits), moves rows only forward, and blocks in memory every turn it makes inactive |
| AdmissionInvariants.CommitTurnTranscript | src/agency/admission/store.py:655-675 | Committing a turn appends exactly its pair to the transcript and exactly itself to the commit order |
| AdmissionInvariants.RecoverPrefixKeeps | src/agency/admission/store.py:742-756 | Recovery keeps the invariant after any number of visited rows, so a failure part-way is safe too |
| AdmissionRequests.ReplayChangesNothing | src/agency/admission/store.py:266-318 | Replaying a request that once succeeded, at any later point and with whatever fresh identifiers, answers "replayed" with the same resource and leaves database and sets untouched; for all three operations |
| AdmissionRequests.OtherUseIsRefused | src/agency/admission/store.py:358-392 | Any other operation or payload under a used (owner, id) is refused and changes nothing |
| AdmissionRequests.SuccessIsRecorded | src/agency/admission/store.py:679-739 | A request that succeeds is found under its id from then on, with exactly its operation and input |
| AdmissionMeaning.TransitionMeans | src/agency/admission/store.py:512-578 | A transition succeeds if and only if the move is one the table allows, the turn is visible and in the expected state, RUNNING is asked only in time and before a cancellation, CANCELLED only before any attempt; it then writes exactly the state, phase, error and time asked for, one event, and blocks the turn unless it runs; a refusal changes nothing |
| AdmissionMeaning.AdmitMeans | src/agency/admission/store.py:343-394 | An admission succeeds if and only if ids, size, encoding and thread fit and the id is new or repeats the same turn; a new one adds exactly one ADMITTED row under the next number, fresh in memory |
| AdmissionMeaning.ClaimMeans | src/agency/admission/store.py:396-428 | A claim succeeds if and only if the turn is the owner's under these ids, fresh, untouched, not cancelled and in time; it answers with the row and the quota subject, marks it reserved and takes the freshness away |
| AdmissionMeaning.ReserveAttemptMeans | src/agency/admission/store.py:760-794 | An attempt is counted if and only if the turn is running, not cancelled, in time and below the limit: that counter rises by one and nothing else changes; otherwise the answer is False and nothing changes |
| AdmissionMeaning.StageMeans | src/agency/admission/store.py:581-639 | A result is staged if and only if the turn is running, not cancelled and in time, the text nonblank, encodable and at most 65536 bytes, the report bound to task and text, and no other result was staged |
| AdmissionMeaning.CommitTurnMeans | src/agency/admission/store.py:641-677 | A turn is committed if and only if it is running, live and holds exactly this staged result and its message ids are unused; two messages, one row and one event change, nothing else |
| AdmissionMeaning.RequestCancelMeans | src/agency/admission/store.py:679-739 | What each request to cancel answers and writes: replay, conflict, terminal, admitted and running targets |
| AdmissionMeaning.CreateThreadMeans | src/agency/admission/store.py:253-320 | A thread is created if and only if ids, title and input fit, the id is new and its parent the owner's; one thread and one completed row are added |
| AdmissionMeaning.HasUncertaintyMeans | src/agency/admission/store.py:453-468 | The answer is true exactly when the owner has an UNCERTAIN turn in a thread of its own |
| AdmissionMeaning.ReadsMean | src/agency/admission/store.py:430-451 | Reading by task or request id finds exactly the owner's own rows, as they are, and changes nothing |
| AdmissionMeaning.RecoverMeans | src/agency/admission/store.py:741-758 | Recovery rewrites exactly the interrupted turns, column by column, and blocks exactly those |
| AdmissionMeaning.TurnInputFits | src/agency/admission/store.py:69-80 | A turn's input passes the size check if and only if its two strings as JSON take 32743 bytes at most (25 fewer than the bound) and the message is encodable |
| AdmissionMetering.BackendStandsBehind | src/agency/admission/budget.py:153-277 | Over every run: granted model calls of a turn never outnumber those the quota backend accepted; every lease held was accepted by it, every lease in use accepted again |
| AdmissionMetering.FinishedNeedsTheBackend | src/agency/admission/budget.py:279-298 | A request is answered as finished, with this success, only in the very step in which the backend accepts it |
| AdmissionMetering.UndisturbedCall | src/agency/admission/budget.py:223-277 | In every reachable world: an undisturbed metered call over a lease in use and a running turn with an attempt left counts one attempt and ends in True if and only if the backend accepts (or it is a tool); a refusal keeps the lease, a backend failure drops it |
| AdmissionUndisturbed.UndisturbedReserve | src/agency/admission/budget.py:153-194 | In every reachable world: undisturbed, a claimable turn's claim is spent, and a lease with the row's own numbers and deadline is held if and only if the backend accepts; its refusal or failure is raised as such |
| AdmissionUndisturbed.UndisturbedMark | src/agency/admission/budget.py:196-221 | Undisturbed, a reserved lease is put in use and its turn set RUNNING if and only if the backend accepts; otherwise the lease is gone and the turn as it was |
| AdmissionUndisturbed.UndisturbedFinish | src/agency/admission/budget.py:279-298 | Undisturbed, a request ends as finished if and only if the backend accepts; the lease is gone either way |
| AdmissionMeaning.EnsureWorkspaceMeans | src/agency/admission/store.py:217-237 | The owner's workspace is found, or made once under an id nobody has |
| AdmissionUndisturbed.TransactionsEnd | src/agency/admission/store.py:184-206 | A commit makes what was staged durable and answers, except a publication after the fence, which leaves nothing and an uncertain error; a roll-back leaves the database and a store error; a failed body opens nothing |
| PilotStore.OwnerPilotStore.constructor | src/agency/admission/store.py:83-99 | A new store: empty sets, publication open, not ready, not closed |
| PilotStore.OwnerPilotStore.Initialize | src/agency/admission/store.py:154-166 | Makes the store ready exactly when it is not closed |
| PilotStore.OwnerPilotStore.FencePublication | src/agency/admission/store.py:168-175 | Publication is closed on return |
| PilotStore.OwnerPilotStore.Close | src/agency/admission/store.py:177-182 | Fences, then refuses all further work |
| PilotStore.OwnerPilotStore.Workspace | src/agency/admission/store.py:217-232 | The connection holds the owner's subject, or is as it was when the workspace id is taken |
| PilotStore.OwnerPilotStore.CreateThread | src/agency/admission/store.py:253-320 | Statement by statement, the body leaves the outcome, connection and sets of the specification CreateThreadWork, the 32768-byte limit on the canonical input included |
| PilotStore.OwnerPilotStore.Admit | src/agency/admission/store.py:343-394 | The body leaves what AdmitWork says: input too large or unencodable, replay, conflict, or one ADMITTED row that is fresh in memory |
| PilotStore.OwnerPilotStore.Claim | src/agency/admission/store.py:396-428 | The body leaves what ClaimWork says; the claim is spent in memory before the row is written |
| PilotStore.OwnerPilotStore.Transition | src/agency/admission/store.py:512-578 | The body leaves what TransitionWork says, whose whole effect TransitionMeans states column by column; every state but RUNNING blocks the turn in memory |
| PilotStore.OwnerPilotStore.StageResult | src/agency/admission/store.py:581-639 | The body leaves what StageWork says: blank or unencodable text and text above 65536 bytes are refused, then the first result is kept and a different one is a conflict |
| PilotStore.OwnerPilotStore.CommitTurn | src/agency/admission/store.py:581-677 | Two inserts and an update leave exactly what CommitTurnWork says, under the same text checks; a repeated message id undoes both |
| PilotStore.OwnerPilotStore.RequestCancel | src/agency/admission/store.py:679-739 | The body leaves what RequestCancelWork says, for terminal, admitted and running targets and for replays |
| PilotStore.OwnerPilotStore.RecoverInterrupted | src/agency/admission/store.py:741-758 | The loop over rows equals RecoverPrefix after every iteration |
| PilotStore.OwnerPilotStore.ReserveAttempt | src/agency/admission/store.py:760-794 | The body leaves what ReserveAttemptWork says: counts one attempt and answers True, or answers False and changes nothing |
| PilotStore.OwnerPilotStore.Run | src/agency/admission/store.py:184-214 | A whole call: the body's result, the file replaced only on an unfenced COMMIT, the sets changed even on roll-back; the file keeps its invariant and continues the old one |
| PilotStore.TransactIsTwoSteps | src/agency/admission/store.py:184-206 | A whole call of the object is exactly the protocol's Begin followed by Commit or RollBack, so the theorems above speak of the object |
| PilotStore.TransactKeeps | src/agency/admission/store.py:184-206 | Whatever a call does, the file it leaves satisfies the invariant and continues the old one; a fenced commit_turn leaves it alone |
| BudgetAdapter.OwnerBudgetAdapter.OwnsLease | src/agency/admission/budget.py:102-123 | The synchronous check over the dictionary and the store's sets answers exactly the protocol's Owns |
| BudgetAdapter.OwnerBudgetAdapter.Revoke | src/agency/admission/budget.py:125-130 | The search through all entries drops exactly the one that holds the lease |
| BudgetAdapter.OwnerBudgetAdapter.Close | src/agency/admission/budget.py:300-305 | Closed, and no lease left |
| BudgetAdapter.OwnerBudgetAdapter.Current | src/agency/admission/budget.py:137-151 | None exactly when the re-read row confirms the lease; a contradiction revokes it and is a conflict |
| BudgetAdapter.OwnerBudgetAdapter.Begin | src/agency/admission/budget.py:153-286 | Each call up to its first await suspends or answers as the protocol says and changes no lease |
| BudgetAdapter.OwnerBudgetAdapter.ReserveRequestResumes | src/agency/admission/budget.py:153-194 | Each later stretch leaves the dictionary and the suspension of the protocol's step, for every reply, backend answer and interruption |
| BudgetAdapter.OwnerBudgetAdapter.MarkRunningResumes | src/agency/admission/budget.py:196-221 | As above; any failure on the way revokes the lease |
| BudgetAdapter.OwnerBudgetAdapter.MeteredCallResumes | src/agency/admission/budget.py:223-277 | As above, for both metered calls, whose grants need the backend's acceptance (BackendStandsBehind, UndisturbedCall); True only after counting and a last confirmation |
| BudgetAdapter.OwnerBudgetAdapter.FinishRequestResumes | src/agency/admission/budget.py:279-298 | As above; the lease is revoked however the call ends |
| BudgetAdapter.OwnerBudgetAdapter.Resume | src/agency/admission/budget.py:83-298 | Any suspended call, resumed, makes exactly the protocol's move |
| BudgetAdapter.StepIsDictionaryAndPause | src/agency/admission/budget.py:83-151 | A protocol step changes nothing of the process but the dictionary, the frame and the answer, which is what the methods are proved about |
| OwnerServiceTheorems.ServiceRefinesProtocol | src/agency/admission/service.py:49-471 | Every system the service reaches lies over a world the protocol reaches, so every protocol theorem holds of the service |
| OwnerServiceTheorems.SystemIsRun | src/agency/admission/service.py:49-471 | Any sequence of service events is one schedule of protocol actions |
| OwnerServiceTheorems.OneTurnAtATime | src/agency/admission/service.py:312-405 | While the service is ready at most one turn is non-terminal; if no execution is under way, that turn is the one an admission has just committed, whose execution is about to start, or the service is blocked or stopping |
| OwnerServiceRestart.RestartSettlesOldTurns | src/agency/admission/service.py:138-161 | In every reachable system that is ready, a non-terminal turn is one this very process admitted: a restart leaves none of the turns before it open |
| OwnerServiceTheorems.UncertaintyClosesAdmission | src/agency/admission/service.py:228-345 | Once a turn of the owner is UNCERTAIN no turn is ever added again, by this process or by any started after a crash |
| OwnerServiceTheorems.CompletedInOrder | src/agency/admission/service.py:449-471 | In every run a COMPLETED turn was first staged, then its gateway entry acknowledged, then its quota request finished successfully, then published: four marks in that order |
| OwnerServiceSafety.HappenKeeps | src/agency/admission/service.py:138-471 | The service invariant is kept by every event: gate calls, the execution and its handler at every await with or without a fault, adapter and store steps, stop, crash |
| OwnerServiceSettling.SettledAsRaised | src/agency/admission/service.py:347-405 | Over every run, with what was raised and what the audit said recorded by an onlooker: a FAILED or DENIED turn raised an exception that is not uncertain, met a clear audit and an undoubted refund, has no result and carries that exception's code, FAILED exactly if it ever ran; an UNCERTAIN one has a reason, and that code |
| OwnerServiceSettling.DoubtIsSettled | src/agency/admission/service.py:347-405 | Over every run: once an execution that raised is over, its turn is terminal or the service blocked; with an uncertain exception, a doubt or a result it is UNCERTAIN, or was COMPLETED or CANCELLED, or the service is blocked |
| OwnerServiceSettling.RefundsOnlyTheCertain | src/agency/admission/service.py:370-374 | Over every run: a request is given back only for a turn that raised without doubt, with a clear audit and no result |
| OwnerServiceSettling.CompletedCameAllTheWay | src/agency/admission/service.py:407-471 | Over every run: a COMPLETED turn passed each await once and in order, with store and audit clear all four times, and holds the very reply the butler gave |
| OwnerServiceSettling.PerformThrows | src/agency/admission/service.py:407-471 | At each await of an execution the exception raised is the one described from outside: fault, store error, audit failure, uncertainty, lost lease, unbound reply, missing acknowledgement |
| OwnerServiceSettling.HappenTells | src/agency/admission/service.py:138-471 | Every service event keeps what the chronicle of each turn says of its row |
| OwnerServiceSettling.SubmitGoesOn | src/agency/admission/service.py:312-340 | Each check of a submission lets it go on if and only if its condition holds, in the stated order; otherwise the gate is freed and nothing changes |
| OwnerServiceSettling.AdmissionStarts | src/agency/admission/service.py:335-345 | An execution starts exactly for a turn the store has just admitted anew |
| OwnerServiceSettling.CancelGoesOn | src/agency/admission/service.py:289-302 | Cancelling revokes the lease and tells the execution if and only if the target is the active task |
| OwnerServiceSettling.StartGoesOnTo | src/agency/admission/service.py:138-161 | The service is ready exactly after recovery succeeded; otherwise adapter closed, service closed |
| OwnerServiceSettling.StopGoesOn | src/agency/admission/service.py:175-205 | Stopping refuses, revokes and fences first; waits for the execution; asks the audit; closes adapter, then store |
| OwnerServiceSettling.CancelAsks | src/agency/admission/service.py:286-302 | A cancellation reaches the store if and only if the workspace is this process's own and the service ready, and reads the task again before the gate is free |
| PilotService.OwnerPilotService.constructor | src/agency/admission/service.py:50-98 | A new service: not ready, nothing running, no lease |
| PilotService.OwnerPilotService.Stop | src/agency/admission/service.py:175-180 | Up to its first await: stopping set, lease revoked, publication fenced |
| PilotService.OwnerPilotService.EnterGate | src/agency/admission/service.py:135-350 | Each call takes the gate as the protocol says; shutting down also revokes and cancels |
| PilotService.OwnerPilotService.Scope | src/agency/admission/service.py:127-133 | Succeeds exactly when the workspace is this process's own, and remembers it |
| PilotService.OwnerPilotService.SubmitResumes | src/agency/admission/service.py:312-345 | Every stretch of submit leaves the fields of SubmitRuns: refusals in order, then one new execution task |
| PilotService.OwnerPilotService.CancelResumes | src/agency/admission/service.py:286-302 | Every stretch of cancel leaves the fields of CancelRuns and revokes the lease exactly when the active execution is the target |
| PilotService.OwnerPilotService.StartResumes | src/agency/admission/service.py:138-161 | Every stretch of start; a failure closes what was opened |
| PilotService.OwnerPilotService.StopResumes | src/agency/admission/service.py:182-205 | Every stretch of stop; the adapter is closed before the store |
| PilotService.OwnerPilotService.ExecutionResumes | src/agency/admission/service.py:347-471 | Every stretch of _execute and _perform, a fault at any await included: the branches, written over the adapter and the fields, leave the fields and leases of the protocol's step and report exactly its acknowledgement |
| PilotService.OwnerPilotService.UncertaintyResumes | src/agency/admission/service.py:228-234 | Asking the store, then the audit: anything pending, durable, blocked or stopping ends the attempt as uncertain, and after mark_running a lost lease as forbidden |
| PilotService.OwnerPilotService.ReplyResumes | src/agency/admission/service.py:436-456 | A reply goes on to be staged only with a completed report bound to this task and text |
| PilotService.OwnerPilotService.PublishResumes | src/agency/admission/service.py:457-471 | The last stretches acknowledge, finish and commit, each only on its own success |
| PilotService.OwnerPilotService.HandlerResumes | src/agency/admission/service.py:353-405 | The handler leaves the step of HandlerStep: audit and row inspected, an unspent request given back when nothing is uncertain, one terminal state, or a blocked service; what it then settles is SettledAsRaised |
| PeerEnvelopeTheorems.SignThenVerify | src/agency/peer_envelope.py:240-324 | If signing returns a wire, verifying it with the matching key and validators that accept without mutating returns the decoded wire; what acceptance means is VerifyMeans |
| PeerEnvelopeMeaning.VerifyMeans | src/agency/peer_envelope.py:269-324 | Verification returns an envelope if and only if the wire of 1 to 65536 bytes is its canonical spelling, its fields fit, all four validators accept it unmutated, sender and key id are the public key's, both digests are those of what they cover, and the key verifies the 64-byte signature over the prefix and the header digest |
| PeerEnvelopeMeaning.EnvelopeMeans | src/agency/peer_envelope.py:139-210 | An envelope fits if and only if it has the fourteen fields, each of its own type, range and form, literal by literal |
| PeerEnvelopeMeaning.SignedCarries | src/agency/peer_envelope.py:240-266 | What is signed carries the caller's payload and header in normal form, the key's name, the two digests and the key's signature |
| PeerEnvelopeMeaning.EncodeCodeMeans | src/agency/peer_envelope.py:100-106 | UTF-8 as in section 3 of RFC 3629, for every code point |
| PeerEnvelopeMeaning.BadFormsAreRefused | src/agency/peer_envelope.py:189-189 | Overlong, surrogate and oversized byte forms are not read |
| PeerEnvelopeMeaning.Base64Vectors | src/agency/peer_envelope.py:213-222 | The test vectors of section 10 of RFC 4648 |
| PeerEnvelopeMeaning.EscapeMeans | src/agency/peer_envelope.py:104-106 | JSON text is printed character by character, with exactly the escapes of the printer |
| PeerEnvelopeMeaning.DecodeMeans | src/agency/peer_envelope.py:172-210 | Decoding returns an envelope if and only if the wire, within the size asked for and 65536 bytes, is its canonical spelling within the depth and its fields fit |
| PeerEnvelopeSigning.SignsExactly | src/agency/peer_envelope.py:240-266 | Signing returns a wire if and only if the header is valid and names the key's peer, the payload is a mapping that is canonical one level down, the correlation id survives NFC, and the wire fits the size limit |
| PeerEnvelopeTheorems.OneDigestOneMessage | src/agency/peer_envelope.py:269-324 | Two verified wires with one envelope digest agree on every header field and on the payload, unless their own header or payload bytes collide under SHA-256 |
| PeerEnvelopeTheorems.VerifyIgnoresHeaderOrder | src/agency/peer_envelope.py:319-321 | Verification does not depend on the order in which the header set is walked |
| PeerEnvelopeTheorems.AddedNamesAreNew | src/agency/peer_envelope.py:252-263 | The fields the signer adds never replace one of the caller's |
| PeerEnvelopeTheorems.PayloadBytesAgree | src/agency/peer_envelope.py:252-317 | The payload canonicalised inside the envelope has the bytes it had on its own |
| PeerEnvelopeTheorems.ProjectedHeader | src/agency/peer_envelope.py:199-319 | The verifier's canonical projection of a canonical envelope is the signer's canonical header |
| PeerEnvelopeSigning.HeaderIsPlain | src/agency/peer_envelope.py:139-158 | Every validated header field but the correlation id is a number or ASCII text, so NFC cannot move it |
| CanonicalJson.AcceptedWiresAreTheNormalForms | src/agency/peer_envelope.py:172-197 | Decoding is a bijection between the accepted wires and the normal forms within the depth limit |
| CanonicalJson.ReadOfCanonical | src/agency/peer_envelope.py:100-108 | Reading the canonical bytes of a value gives its normal form, and those bytes are accepted |
| CanonicalJson.AcceptedIsNormal | src/agency/peer_envelope.py:187-197 | Every decoded value is a fixed point of canonicalisation |
| CanonicalJson.NormalIffFixed | src/agency/peer_envelope.py:71-97 | The fixed points of canonicalisation are exactly the independently described normal forms |
| CanonicalJson.CanonicalIdempotent | src/agency/peer_envelope.py:71-97 | Canonicalising twice is canonicalising once |
| CanonicalJson.MoreRoom | src/agency/peer_envelope.py:72-73 | What is canonical deep inside a value has the same canonical form at the top |
| CanonicalJson.CanonicalBytesInjective | src/agency/peer_envelope.py:100-108 | Two values have the same canonical bytes exactly when they have the same normal form |
| CanonicalJson.SameDecodedAgree | src/agency/peer_envelope.py:225-237 | Values that differ only in key order, at any depth, have one canonical form |
| CanonicalJson.ReencodingIsNotEnough | src/agency/peer_envelope.py:297-303 | Comparing canonical forms would miss NFC-equivalent text and a tuple for a list; the comparison of decoded values sees both |
| CanonicalJson.CanonicalValue | src/agency/peer_envelope.py:71-97 | The recursive method with the source's loops computes the specification Canonical |
| CanonicalJson.CanonicalEntries | src/agency/peer_envelope.py:88-95 | The loop over entries fails exactly when some entry fails or two keys collide after NFC |
| CanonicalJson.SortSorts | src/agency/peer_envelope.py:96-96 | Sorting by UTF-8 bytes yields a strictly ascending list when keys are distinct scalar text |
| CanonicalJson.SortedUnique | src/agency/peer_envelope.py:96-96 | Two strictly ascending lists with the same members are the same list |
| Json.LoadsOfPrint | src/agency/peer_envelope.py:100-108 | Parsing a printed value gives exactly that value (RFC 8259) |
| Json.ParsedIsPlain | src/agency/peer_envelope.py:188-193 | The parser produces only values without repeated keys, floats or tuples |
| Json.UniquePairs | src/agency/peer_envelope.py:111-117 | The object hook keeps the pairs exactly when no key repeats |
| Utf8.DecodeOfEncode | src/agency/peer_envelope.py:78-81 | Strict UTF-8 decoding undoes encoding on every text without surrogates |
| Utf8.EncodeOfDecode | src/agency/peer_envelope.py:189-189 | Only one byte string decodes to a text, and a decoded text has no surrogates |
| Utf8.ByteOrderIsCodeOrder | src/agency/peer_envelope.py:96-96 | Comparing keys by UTF-8 bytes is comparing them by code points |
| TextCodecs.SignatureSpelling | src/agency/peer_envelope.py:213-222 | A signature text is accepted exactly when it is the base64 of 64 bytes in its one canonical spelling (sections 3.5 and 4 of RFC 4648) |
| TextCodecs.FromBase64OfBase64 | src/agency/peer_envelope.py:217-220 | Decoding undoes base64 encoding on all byte strings |
| TextCodecs.FromHexOfHex | src/agency/peer_envelope.py:311-311 | Reading the hex of a digest gives the digest |
| ThreadContext.CacheAgreesWithReference | src/agency/butler/context.py:106-160 | After any interleaving of appends, new threads, assemblies and default summaries, the assembled context is the reference: a summary of all but the last `window` messages, then exactly those |
| ThreadContext.AssembleSplits | src/agency/butler/context.py:131-160 | Over any faithful store, explicit boundaries included: summary and window split the messages with no gap and no overlap at the larger of stored boundary and window start; fails exactly for a negative window over messages |
| ThreadContext.AgreesWhileBoundaryLags | src/agency/butler/context.py:131-160 | The reference is met for explicit boundaries too, as long as the stored one has not passed the window's start |
| ThreadContext.BoundaryNeverMovesBack | src/agency/butler/context.py:166-193 | No event moves a stored boundary back |
| ThreadContext.SummaryIsContent | src/agency/butler/context.py:195-205 | A summary of at least one message is never blank, so the store takes it |
| ThreadContext.SummaryIsShort | src/agency/butler/context.py:195-205 | A summary exceeds 2000 characters exactly when its lines do, and then has 2001: the last 2000 and the mark of the cut |
| ThreadContext.SevenLongMessagesExceedTheCap | src/agency/butler/context.py:195-205 | Seven messages of 300 letters are an input that exceeds the cap |
| ThreadSummary.SummaryMeans | src/agency/butler/context.py:195-205 | A summary is the lines of its messages in order, each with its role and clipped text; beyond 2000 characters it is the mark of the cut and the last 2000 of them |
| ThreadSummary.NewestStandWhole | src/agency/butler/context.py:201-205 | The lines of the newest k messages stand whole at the end of a summary if and only if they take at most 2000 characters |
| ThreadSummary.ClipMeans | src/agency/butler/context.py:73-77 | A clipped text is the stripped one if it fits, otherwise its beginning without white space before the mark, within the limit |
| ThreadSummary.WindowMeans | src/agency/butler/context.py:211-213 | The window shows its messages oldest first, a line each: role in brackets, clipped text |
| ThreadContext.NewStoreAgrees | src/agency/butler/threads.py:197-214 | From an empty store, every run of workspaces, threads, appends, assemblies and summaries ends with contexts that agree with the reference |
| ThreadContext.NewStoreHoldsThreads | src/agency/butler/threads.py:231-247 | Such runs have visible threads: a workspace, a thread and a message make a context of that message |
| ThreadContext.EmptyCache | src/agency/butler/threads.py:197-214 | A new store's cache is in order |
| ThreadContext.ThreadContextEngine.Assemble | src/agency/butler/context.py:106-160 | The method over the store leaves the outcome and tables of the specification Assembled |
| ThreadContext.ThreadContextEngine.SummarizePrefix | src/agency/butler/context.py:166-193 | The method stores exactly the summary Summarized says, or changes nothing and fails as it says |
| ThreadContext.ThreadContextEngine.SummarizeLines | src/agency/butler/context.py:195-205 | The loop builds exactly the summary text of the messages, which SummaryMeans describes |
| ButlerThreads.ThreadStore.CreateWorkspace | src/agency/butler/threads.py:231-247 | One workspace more under the stripped owner, or nothing |
| ButlerThreads.ThreadStore.CreateThread | src/agency/butler/threads.py:287-343 | Creates the thread, with no messages even when branched, or fails and changes nothing |
| ButlerThreads.ThreadStore.AppendMessage | src/agency/butler/threads.py:373-406 | Appends exactly one message or changes nothing; table invariant kept |
| ButlerThreads.ThreadStore.ListMessageRows | src/agency/butler/threads.py:412-440 | The rows of the thread with their ascending row numbers |
| ButlerThreads.ThreadStore.GetSummary | src/agency/butler/threads.py:509-523 | The owner's stored summary, or the failure of the ownership check |
| ButlerThreads.ThreadStore.SetSummary | src/agency/butler/threads.py:459-507 | Replaces exactly one summary, only at a row of this thread |
| ButlerThreads.AppendMeans | src/agency/butler/threads.py:373-406 | A message is appended if and only if the thread is the owner's, the role one of three and the content not blank; it is the newest of its thread and of no other |
| ButlerThreads.CreateMeans | src/agency/butler/threads.py:287-343 | A thread is created if and only if the workspace is the owner's, the parent, if any, the owner's in that workspace, and the names are not blank |
| ButlerThreads.SummaryMeans | src/agency/butler/threads.py:459-507 | A summary is stored if and only if the thread is the owner's, the content not blank and the boundary a row of that thread |
| ButlerThreads.RowsAscend | src/agency/butler/threads.py:412-440 | Row numbers ascend strictly and name messages of the thread |
| ButlerThreads.RowsComplete | src/agency/butler/threads.py:412-440 | Every message of the thread has its row |
| TelegramDelivery.AtLeastOnce | src/telegram_bot.py:286-356 | Against a server that resends in ascending order whatever no handler call has finished: over every run, through handler failures, failed commits, a competing poller, a stop and crashes, neither the offset in memory nor the durable one has passed an update no handler call finished |
| TelegramDelivery.PruningChangesNoDecision | src/telegram_bot.py:296-340 | The pruned duplicate set skips exactly what the unbounded one would: the updates below the offset |
| TelegramDelivery.PruningEmpties | src/telegram_bot.py:334-340 | When it outgrows its size the set is emptied |
| TelegramDelivery.DurableOffsetNeverMovesBack | src/telegram_bot.py:161-206 | No step, a crash included, moves the durable offset back |
| TelegramDelivery.DisorderLosesAnUpdate | src/telegram_bot.py:286-340 | The assumption of ascending batches is needed: out of order, an update is passed durably without being handled |
| TelegramDelivery.BatchIsRun | src/telegram_bot.py:286-356 | The batch loop, uninterrupted, is one run of the steps the theorems are about |
| TelegramDelivery.BackoffIsBounded | src/telegram_bot.py:256-257 | Back-off grows with failures and stays between 1 and 30 seconds |
| TelegramAnswers.OneUpdate | src/telegram_bot.py:286-356 | One update: not due, nothing happens; not answered with "ok", "ignored" or "rejected", or not stored, offset, file and seen set stay and a failure is counted; otherwise the offset is one past it |
| TelegramAnswers.OnlyFinishedUpdatesMove | src/telegram_bot.py:286-356 | Over a whole batch the offset moves, in memory or file, only to one past an update answered with one of the three statuses |
| TelegramAnswers.FinishingIsAnAnswer | src/telegram_bot.py:315-316 | Over the steps, an update counts as finished only through such an answer to it |
| TelegramAnswers.BackoffDoubles | src/telegram_bot.py:256-257 | 1, 2, 4, 8, 16, then 30 seconds |
| TelegramPolling.TelegramBot.constructor | src/telegram_bot.py:161-187 | In beta a new process resumes from a positive stored offset, otherwise from none |
| TelegramPolling.TelegramBot.PersistOffset | src/telegram_bot.py:189-206 | The cell is written exactly when a connection is open and the commit succeeds |
| TelegramPolling.TelegramBot.HandleUpdates | src/telegram_bot.py:286-356 | The loop over a batch computes the specification Batch for every handler and commit outcome |
| TelegramPolling.TelegramBot.PollBatch | src/telegram_bot.py:259-356 | One poll: a batch handled, a conflict that stops polling, or a counted failure |
| AgentFactory.LogTellsTheRow | src/agency/factory/service.py:349-768 | In every run a version's events form one legal path that replays to its status; nothing is entered twice; activation only after approval by someone other than the creator, with evidence |
| AgentFactory.PoolAgreesUnlessStranded | src/agency/factory/service.py:572-730 | Every event keeps "an issued agent is in the runtime pool only while a row is ACTIVE with its id", a part-way failed activation included, except exactly a committed revocation whose kernel step then fails |
| AgentFactory.PoolHoldsOnlyActiveAgents | src/agency/factory/service.py:572-730 | In every run without such a failure, an issued agent in the pool has an ACTIVE row |
| AgentFactory.StrandingIsReachable | src/agency/factory/service.py:681-730 | From an empty factory: create, approve, activate, then a committed revocation whose kernel step fails leaves the agent in the pool with nothing active behind it |
| AgentFactory.StrandedStays | src/agency/factory/service.py:681-730 | A stranded agent stays in the pool: revoking again does nothing |
| AgentFactory.AgentFactory.CreateDraft | src/agency/factory/service.py:349-430 | Row and event together, or neither |
| AgentFactory.AgentFactory.ApproveDraft | src/agency/factory/service.py:483-543 | The state of Approve: only drafts, never by the creator, with evidence |
| AgentFactory.AgentFactory.ActivateApproved | src/agency/factory/service.py:572-679 | Register first, write last; any failure takes the agent out of the pool again |
| AgentFactory.AgentFactory.RevokeBlueprint | src/agency/factory/service.py:681-730 | Row first, registries after; a kernel error other than an unknown id skips the pool |
| AgentFactory.AgentFactory.ListEvents | src/agency/factory/service.py:760-768 | Exactly the version's changes, oldest first |
| AgentFactory.RuntimeRegistry.Register | src/agency/agents/registry.py:84-98 | Refuses a registered id, otherwise adds it |
| AgentFactory.RuntimeRegistry.Deregister | src/agency/agents/registry.py:100-112 | Removes the id and says whether it was there |
| AgentFactory.ApprovalMeans | src/agency/factory/service.py:483-543 | Approval changes a version if and only if it is a draft, the approver named and not its creator, the evidence fits, the authority allows, references are published and the write commits; and then exactly these columns |
| AgentFactory.ActivationMeans | src/agency/factory/service.py:572-679 | Activation changes a version if and only if it is approved, has no agent, is valid, registers under a free id and commits; on any failure that id is in no pool |
| AgentFactory.RevocationMeans | src/agency/factory/service.py:681-730 | Revocation changes a version if and only if it is not revoked, has evidence and commits; the agent leaves the pool unless the kernel fails |
| AgentFactory.ApprovedByLeave | src/agency/factory/service.py:483-543 | In every run a recorded approver made an approval in the run, of the draft, with evidence, published references and the authority's leave |
| AgentFactory.ActivatedWhenApproved | src/agency/factory/service.py:572-679 | In every run a recorded agent id was given by an activation of the approved, valid version under a free id |
| AgentFactory.CreationMeans | src/agency/factory/service.py:349-430 | A draft is added if and only if its key is new, its creator named and short, the rest well formed and the write commits |
| Lifecycle.PathReplays | src/agency/factory/service.py:760-768 | Replaying a legal path of changes ends at its status |
| PromptLibrary.LogTellsThePrompt | src/agency/factory/prompts.py:333-370 | In every run a prompt's log is one legal path that replays to its status; approval and publication carry evidence; a prompt that did not start as a draft is built in |
| PromptLibrary.MoveMeans | src/agency/factory/prompts.py:333-370 | A prompt moves if and only if by one step of the order, with evidence for approved and published, and then exactly its status |
| PromptLibrary.BeginningMeans | src/agency/factory/prompts.py:229-299 | A prompt begins if and only if as a new draft, or as a new published built-in with evidence; publishing is the step from approved |
| PromptLibrary.PublishedOnce | src/agency/factory/prompts.py:372-379 | A prompt at or past published was published by exactly one change of its log |
| PromptLibrary.TextIsImmutable | src/agency/factory/prompts.py:333-370 | Text and provenance never change and the status never falls back, whatever happens |
| PromptLibrary.PromptRegistry.RegisterPrompt | src/agency/factory/prompts.py:229-261 | Inserts a draft and its event, or changes nothing |
| PromptLibrary.PromptRegistry.SeedBuiltin | src/agency/factory/prompts.py:263-299 | Inserts a published built-in once |
| PromptLibrary.PromptRegistry.TransitionPrompt | src/agency/factory/prompts.py:333-370 | One step forward with its event, evidence where required, or nothing |
| PromptLibrary.PromptRegistry.PublishPrompt | src/agency/factory/prompts.py:372-379 | Publishes an approved prompt with evidence, or changes nothing |
| PromptLibrary.PromptRegistry.IsPublished | src/agency/factory/prompts.py:325-331 | Exactly whether the prompt is published |
| CircuitBreaker.CounterIsTheTrailingRun | src/agency/bridges/coordinator.py:115-137 | On every trace, late results included, the failure counter is the trailing run of failures, and below the threshold while closed |
| CircuitBreaker.StateMovesExactly | src/agency/bridges/coordinator.py:80-144 | On every trace: open turns half-open exactly when looked at after the dwell; half-open closes exactly at the success that completes the threshold in its epoch and opens at any failure; closed opens exactly at the failure that completes the threshold in a row |
| CircuitBreaker.AdmissionMeans | src/agency/bridges/coordinator.py:95-113 | A call is admitted if and only if closed, or half-open or past the dwell with a slot free, and takes the slot |
| CircuitBreaker.NoCallDuringTheDwell | src/agency/bridges/coordinator.py:95-113 | No call is admitted before the dwell after any earlier trip has elapsed |
| CircuitBreaker.ProbesAreLimited | src/agency/bridges/coordinator.py:109-113 | Within a half-open epoch admissions minus recorded results never exceed the limit; the probes really outstanding exceed it by at most the late results |
| CircuitBreaker.LateResultsFreeASlot | src/agency/bridges/coordinator.py:115-126 | With every slot taken, one more success admits a call beyond the limit if and only if it belonged to an earlier epoch |
| CircuitBreaker.ProbeLimitHoldsExactly | src/agency/bridges/coordinator.py:95-126 | The limit on outstanding probes holds on every trace if and only if one success closes the circuit; otherwise it is exceeded by less than the successes that takes |
| CircuitBreaker.LimitIsBreached | src/agency/bridges/coordinator.py:95-126 | For every other configuration, a run from the start that ends with more probes than allowed |
| CircuitBreaker.StarvedForever | src/agency/bridges/coordinator.py:95-113 | Half-open with all slots taken and nobody to report back, the breaker admits nothing ever again |
| CircuitBreaker.StarvationBegins | src/agency/bridges/coordinator.py:228-240 | One step starves the breaker exactly when it abandons the last outstanding call with no slot free |
| CircuitBreaker.NoStarvationWithoutCancellation | src/agency/bridges/coordinator.py:213-250 | On every trace without a cancelled call the breaker is never starved |
| CircuitBreaker.StarvationIsReachable | src/agency/bridges/coordinator.py:213-250 | For every valid configuration a run starves the breaker: failures, the dwell, probes in every slot, their cancellation |
| CircuitBreaker.RouteIsRun | src/agency/bridges/coordinator.py:213-250 | A routed call is one admission and one result (none when cancelled) of the breaker, leaves no call of its own outstanding, and gives its half-open slot back unless cancelled |
| CircuitBreaker.CircuitBreaker.ReadState | src/agency/bridges/coordinator.py:80-88 | Reading refreshes open to half-open exactly when the dwell has elapsed |
| CircuitBreaker.CircuitBreaker.Allow | src/agency/bridges/coordinator.py:95-113 | The new counters and the answer of Allowed |
| CircuitBreaker.CircuitBreaker.RecordSuccess | src/agency/bridges/coordinator.py:115-126 | The new counters of Succeeded |
| CircuitBreaker.CircuitBreaker.RecordFailure | src/agency/bridges/coordinator.py:128-144 | The new counters of FailedOnce |
| CircuitBreaker.ExternalCoordinator.RouteTask | src/agency/bridges/coordinator.py:213-250 | Guarded execution leaves the named breaker as Route says, and touches no other |
| AuditClaims.OneCallPending | src/agency/kernel/audit.py:373-424 | With any number of claims interleaved with each other and with other rows, at most one intent is ever pending |
| AuditClaims.RefusedExactlyWhenPending | src/agency/kernel/audit.py:386-397 | A claim is refused exactly when something was pending in its transaction; one that succeeds saw nothing pending and has its row committed |
| AuditClaims.AloneIsClaim | src/agency/kernel/audit.py:373-397 | A claim nothing interleaves with is the method |
| AuditClaims.SettlingIsByCallId | src/agency/kernel/audit.py:342-350 | An intent is settled exactly by an outcome with its call id; one without a call id can never be settled |
| AuditClaims.BlockedUntilSettled | src/agency/kernel/audit.py:342-397 | From a pending intent on, over every schedule without an outcome of its call id, no claim succeeds |
| AuditClaims.RowsAreForGood | src/agency/kernel/audit.py:399-450 | Over every schedule the audit only grows and no two rows share an id |
| AuditClaims.BetaAuditLog.HasPendingCalls | src/agency/kernel/audit.py:367-371 | Whether some intent has no outcome with its call id |
| AuditClaims.BetaAuditLog.ClaimIntent | src/agency/kernel/audit.py:373-397 | Refused when something is pending, raised when the row cannot be written, otherwise one row more |
| AuditClaims.BetaAuditLog.InsertClaimedIntent | src/agency/kernel/audit.py:399-424 | One row more, or an error and nothing |
| AuditClaims.BetaAuditLog.AppendBeta | src/agency/kernel/audit.py:439-450 | One row more, or an error and nothing |
| ScopeGlob.GlobMeaning | src/agency/kernel/policies.py:249-276 | On targets without a newline the compiled expression matches exactly when the target is the pattern with each `*` replaced by some text |
| ScopeGlob.RegexMeansGlob | src/agency/kernel/policies.py:249-276 | For every target: exactly the pattern filled with newline-free texts, with or without one newline after it |
| ScopeGlob.RegexReadsBack | src/agency/kernel/policies.py:257-276 | The expression reads back as one token per character of the glob: the escaping is right |
| ScopeGlob.TranslateGlob | src/agency/kernel/policies.py:257-269 | The loop builds exactly the expression |
| ScopeGlob.WildcardsStopAtNewlines | src/agency/kernel/policies.py:264-265 | Every pattern with a wildcard has a target with newlines that the glob takes and the expression does not |
| ScopeGlob.FinalNewlineSlipsThrough | src/agency/kernel/policies.py:268-268 | A pattern without wildcards also accepts a final newline it does not mention |
| PolicyEngine.ScopeMeaning | src/agency/kernel/policies.py:249-254 | On targets without a newline a permission's scope matches exactly what its glob means |
| PolicyEngine.OnlyStarIsExact | src/agency/kernel/policies.py:249-254 | On all targets it does so if and only if the scope is `*`, the one that is never translated |
| PolicyEngine.IssuingOnlyWidens | src/agency/kernel/policies.py:311-405 | Issuing under a new (agent, scope) key never turns an allowed request into a denied one |
| PolicyEngine.RevokingWidensExactly | src/agency/kernel/policies.py:316-405 | A request allowed after a revocation was denied before if and only if the revoked permission was the first match and was expired or did not reach the action |
| PolicyEngine.RevokingCanWiden | src/agency/kernel/policies.py:316-405 | And that happens: a stale wildcard hides a live permission |
| PolicyEngine.AllowedMeans | src/agency/kernel/policies.py:344-405 | Allowed if and only if every condition holds: not revoked, trust, some capability, human gate, a live first match that reaches the action |
| PolicyEngine.ThresholdsMean | src/agency/kernel/policies.py:65-82 | Whatever is allowed has the trust of the table (0, 1, 2, 3, 3, 4), a capability of the class, and for production and destructive a human's approval, bounded in time for the latter |
| PolicyEngine.AllowedIsDownwardClosed | src/agency/kernel/policies.py:344-405 | Whoever may do something may do everything of a lower class on the same target |
| PolicyEngine.AllowedUntilExpiry | src/agency/kernel/policies.py:234-247 | An allowed request stays allowed exactly until the deciding permission's date or duration ends |
| PolicyEngine.DecidingMeans | src/agency/kernel/policies.py:370-385 | The deciding permission is exactly the agent's first, in order of issue, whose scope matches |
| PolicyEngine.ReasonsMean | src/agency/kernel/policies.py:344-405 | A reason is given if and only if it holds, for each of the eight |
| PolicyEngine.LapsedCountsOnlyAtTheGate | src/agency/kernel/policies.py:344-415 | An allowed request would be allowed without all expired permissions if and only if it is not production or destructive, or some approving permission has not expired |
| PolicyEngine.DecidingApprovalIsLive | src/agency/kernel/policies.py:344-415 | It suffices that the deciding permission is itself human-approved, and bounded in time for a destructive action |
| PolicyEngine.LapsedApprovalStillCounts | src/agency/kernel/policies.py:407-415 | The condition is needed: a lapsed approval opens the gate beside a live unapproved permission |
| PolicyEngine.PolicyEngine.Issue | src/agency/kernel/policies.py:311-314 | From then on the (agent, scope) key answers with the permission and every other key as before; a known key keeps its place, a new one goes last |
| PolicyEngine.PolicyEngine.Revoke | src/agency/kernel/policies.py:316-319 | From then on the key has no answer and every other key the one it had; tells whether it had one |
| PolicyEngine.PolicyEngine.RevokeAll | src/agency/kernel/policies.py:321-326 | From then on no key of the agent has an answer and every other key the one it had; counts what it removed |
| PolicyEngine.PolicyEngine.HumanGate | src/agency/kernel/policies.py:407-415 | Exactly whether some approving permission matches |
| PolicyEngine.PolicyEngine.Evaluate | src/agency/kernel/policies.py:344-405 | Collects every reason in order: the decision of Evaluated |
| Assessment.NeverPassed | src/agency/agents/assessment.py:59-193 | No report or subtask the validators accept has verification PASSED |
| Assessment.VerificationMeans | src/agency/agents/assessment.py:257-265 | An accepted report says FAILED exactly when a check failed, NEEDS_REVIEW exactly when none failed and some check was performed |
| Assessment.EveryVerifierOutcomeIsAccepted | src/agency/agents/assessment.py:277-326 | Whatever criteria and denylist, the classic builder returns a subtask the validators accept for exactly the completed outputs that are nonblank and have a UTF-8 encoding |
| Assessment.ClassicAccepted | src/agency/agents/assessment.py:277-326 | The classic builder succeeds exactly on completed, nonblank, encodable output with nonempty ids and outcomes the two heuristics can give |
| Assessment.UncheckedAccepted | src/agency/agents/assessment.py:204-233 | The unchecked builder succeeds exactly on terminal statuses with encodable output, honest completion and the fixed ids of the other paths |
| Assessment.BuildAccepted | src/agency/agents/assessment.py:236-254 | A report is built exactly when its status is terminal, its output encodable, completion backed by completed work, and every subtask valid |
| Assessment.LoneSurrogateIsRefused | src/agency/agents/assessment.py:200-201 | Output with a lone surrogate is nonblank and no builder takes it |
| Assessment.BuiltIsBound | src/agency/agents/assessment.py:343-362 | A built report is bound to exactly its own task, status and output, as far as the digest tells outputs apart |
| Assessment.ClassicSays | src/agency/agents/assessment.py:277-326 | A classic subtask carries both heuristics' answers and an accuracy check not performed for want of an oracle; FAILED if a heuristic failed, NEEDS_REVIEW otherwise |
| Assessment.UncheckedSays | src/agency/agents/assessment.py:204-233 | An unchecked subtask says of all three criteria that nothing was checked, and why |
| Assessment.BuiltSays | src/agency/agents/assessment.py:236-275 | A report carries its task, status, digest and subtasks, fails exactly with some check, and tells exactly whether risk was assessed for none or all |
| Assessment.BuildClassicChecks | src/agency/agents/assessment.py:290-310 | The loop over criteria appends exactly the three checks |
| Verifier.CompletenessMeans | src/agency/agents/verifier.py:183-202 | The check passes if and only if the text is not blank and mentions every criterion; its score is the share mentioned |
| Verifier.SafetyMeans | src/agency/agents/verifier.py:225-241 | Output is safe if and only if it is within the bound and no denylist rule hits it |
| Verifier.CompletenessScores | src/agency/agents/verifier.py:183-202 | The coverage score lies in [0, 1] and is 1 exactly when the check passes |
| Verifier.MissingIsNotMentioned | src/agency/agents/verifier.py:197-198 | A criterion is missing exactly when the lower-cased text does not contain its lower-cased name |

## Left out

- OwnerServiceTheorems.CompletedInOrder: the acknowledgements of the audit and of the quota backend are marks made when the execution sees the answer; what those stores hold is not part of this model.
- TelegramDelivery.AtLeastOnce: assumes a server that answers in ascending order and leaves out no unfinished update below one it sends; `DisorderLosesAnUpdate` shows the need.
- PeerEnvelopeTheorems.SignThenVerify: all error kinds are one outcome, None; a header that is not a mapping raises TypeError in the source and is None here.
- Json.LoadsOfPrint: no limit on the number of digits of an integer; floats, bytes, objects and mappings with non-text keys are one refused value, Opaque.
- AgentFactory.PoolHoldsOnlyActiveAgents: one process writes the factory database, so the branches for a row changed under the writer do not occur; the kernel registry, the authoriser and the published-reference check answer as oracles.
- BudgetAdapter.OwnerBudgetAdapter.Resume: methods that await are one method per stretch between awaits; the interleaving of stretches is in the machine of `AdmissionProtocol`, on values, to which each stretch is proved equal.
- PilotStore.OwnerPilotStore.Run: a transaction reads the clock once, and COMMIT either happens or rolls back; connection errors in between are roll-backs.
- CircuitBreaker.ExternalCoordinator.RouteTask: one uninterrupted call; streaming, health checks and registration of bridges are left out.
- The 524288-byte limit on a staged result as a whole, whose reports are compared as values instead of by digest.
- The listing views of the store and the service, timestamps as text, SQLite pragmas, file locks and threads.
- KeyboardInterrupt and SystemExit; every other interruption of an execution is a fault at an await, or a task cancelled before its first step.
- The quota backend, the metered model, the Telegram handler and transport, the bridges: oracles with the answers the modelled code tells apart.
- The frozen records of `admission/models.py` beyond their fields: their constructors only check shapes.
- Topical recall and rendering of the whole context; writers to pilot threads other than the store.
- Capability, reference and prompt-parameter normalisation in the factory, and field checks of prompts: one well-formedness answer.
- Errors while closing the audit, the budget backend or the store, and while opening the poll database: the service then only raises or refuses more.
- Audit columns no query reads, the check of journal mode, and the read-back after an insert.
- Network, filesystem and data policies, and permissions whose creation time has no zone.
- Model judges and the accuracy check of the verifier, the wording of the assessment notice, and the contents of risk categories.
- Logging and error texts throughout.
