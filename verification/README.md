# Nitriding's horizontal scaling, verified

Nitriding runs one leader enclave and any number of worker enclaves. The enclaves agree on
who leads, workers register with the leader, and the leader hands its key material to them
over a two-request protocol that is rooted in attestation documents. This project models
that machinery in Dafny and proves what holds in every run of it. `dafny verify
dfyconfig.toml` checks the whole project.

| file | what it models |
|---|---|
| Common.dfy | bytes, options, key sets |
| SyncProtocol.dfy | the key-sync protocol as a labelled transition system |
| SyncFrames.dfy | what the steps of one side leave alone on the other |
| SyncInvariant.dfy, SyncGrowth.dfy, SyncSteps.dfy | its inductive invariant and the proof that every step keeps it |
| SyncKnowledge.dfy | more that holds in every state: known nonces, signed bodies, waiting nonces |
| SyncTheorems.dfy | what follows for every run |
| SyncProgress.dfy | runs that the protocol does have |
| SyncStuck.dfy, SyncRecovery.dfy | when exactly a worker can still be synced |
| SyncLosses.dfy | which steps exactly take that away |
| SyncAccounts.dfy | what the steps of a run add up to: registry, fan-outs, requests, heartbeats |
| SyncAbstraction.dfy, ByteStrings.dfy | why nonces, keys and digests may be atoms in the protocol model |
| WorkerSession.dfy | a worker's two handlers as imperative code over their one-slot channels |
| SyncHandlers.dfy | why the handlers on bytes and the steps of the protocol model are the same |
| Designation.dfy | leader designation as a labelled transition system |
| Registry.dfy, LengthRendezvous.dfy | the worker registry's event loop and its length query |
| Streams.dfy, Frames.dfy, LimitedReading.dfy, SyncBudget.dfy | chunked streams, the frame loops, the limit reader, the length budget of a sync request |
| Attestation.dfy | document fields, roles and PCR comparison |
| ExpiringCache.dfy | the expiring cache |

## How the key-sync protocol is cut into steps

A step is one statement that touches something shared; steps of all handlers interleave
freely, and a handler that waits for a channel simply has no step.

| step | statement |
|---|---|
| GetArrives | the in-progress check of `initSync`, sync_worker.go 110 |
| PushNonce, PushKey | the two channel sends, sync_worker.go 124-138 |
| BoxKeyFails, AnswerGet, AttstnFails | sync_worker.go 133-158 |
| PostArrives | the limited read of `finishSync`, sync_worker.go 171-176 |
| TakeNonce | the nonce receive, sync_worker.go 187 |
| VerifyPost | verification, role and hash check, sync_worker.go 187-205 |
| PopKey | key receive and decryption, sync_worker.go 207-218 |
| Install | sync_worker.go 221-228, enclave.go 443-456 |
| ClientAttstn | handlers.go 202-226 |
| Put, Dispatch, SpawnSync, DispatchDone | handlers.go 108-128, workers.go 63-64 and 74-78 |
| Heartbeat, Register | the comparison of hashes and the send to the event loop, handlers.go 255-260, workers.go 53-56 |
| Prune, RegisterAfter, UnregisterAfter | workers.go 44-61, handlers.go 233-235 and 124-126 |
| HearDoc, TakeSnapshot, PostKeys, HearOk, SyncFails | the parts of `syncWith`, sync_leader.go 54-141 |

The network is hostile: any GET and POST may reach any worker at any time, and any document
may answer the leader. Assumed are only these: the hypervisor signs what it was asked to sign
and nothing else, and nobody has a document before it is signed; a fresh nonce is one that
nobody drew or named before, and box keys are fresh; SHA-256 has no collisions; a sealed box
opens only with its key; a 200 that the leader hears is the addressed worker's answer to the
posted request or a copy of it; all leader documents of a run have the same length; there is
one leader (Designation.dfy); and heartbeats name workers.
The bookkeeping fields of the state (documents, versions, times, the log of decryptions)
record what happened; `OnlyChannelsBlock` shows that they never decide whether a handler can
go on.

`initSync` goes on with a zero nonce after a 400 and `finishSync` goes on after a JSON error;
both are modelled as written, and so are the type assertions that panic on a document of
another role.

## Where the code keeps less than it promises

* A worker's decryptions never go back in time, but its installations can: `AgreementLastsIff`
  says which steps end agreement, `InstallCanRollBackIff` when there is a run back to the older
  keys, and `InstallsAdvanceIffInOrder` at which installation. Installing in order does not help
  when the leader is given other keys and then the earlier ones again:
  `InOrderInstallBreaksIff`, `InOrderInstallCanBreakIff`.
* Between the comparison of hashes and the registration of a worker there is room for a PUT and
  its whole fan-out: `RegistrationCanMissFanOut`.
* A sync can go through only if the leader's keys fit into one request: `SyncPossibleIff`,
  `AgreementNeedsRoom`. PUT accepts application keys that never do: `LargeAppKeysCannotSync`.
* A session that nobody can finish any more ends all syncing of its worker, in every
  interleaving (`StuckForGood`). `DecryptsAgainIff` says exactly when a worker can still be
  synced, and `LosingStepIff` which steps of anybody take that away. A POST that fails a check after it took the nonce, a call that gives up while its
  worker waits, a GET with a nonce that no call waits for (or with none) and a POST without a
  document all lead there: `FailedPostEndsSyncing`, `FailedCallEndsSyncing`,
  `StrayGetEndsSyncing`, `StrayPostEndsSyncing`; `WedgedIff` is the view of handlers run one at
  a time.
* A client's document with the nonce of a call takes the leader down, and nothing else that
  answers its GET does: `HearDocCrashesIff`, `ClientDocCrashesLeader`.
* `arePCRsIdentical` is documented to say yes if and only if the maps are identical. It skips
  PCR4, and where just one map has PCR4 it is not even symmetric: `MatchesButDiffers`. The exact
  statements are `MatchesIffEqualButParent`, `MatchesIsOneSided` and `MatchesOneMoreIff`.
* The worker's hash does not determine its keys in general: `SameHashSameKeysIff`.
* `length` can return zero while workers are registered: `TwoCallersCanMeet`.
* An enclave that is stopped while it designates counts as a worker too early:
  `StoppedEnclaveJumpsTheQueue`.
* Re-adding a key to the cache does not extend its life: `ReAddingDoesNotExtend`.

## Model

| member | source | states |
|---|---|---|
| SyncSteps.StepKeeps | sync_worker.go:104-231 | the invariant of the key-sync protocol is inductive: each of the 26 kinds of steps of any handler keeps it |
| SyncSteps.ReachableInv | sync_worker.go:104-231 | every state that any interleaving of any number of handlers reaches satisfies the invariant |
| SyncInvariant.CertifiedMeans | sync_leader.go:90-119 | a posted document that verifies for the taken nonce vouches for a ciphertext that one syncWith call sealed for the key of that very session |
| SyncTheorems.PassedHandlerFindsItsKey | sync_worker.go:187-218 | a finishSync past verification and hash check never waits for a key, finds exactly the key of the session whose nonce it took, decrypts with success, and is the only handler of its worker at that point |
| SyncTheorems.OnlyChannelsBlock | sync_worker.go:129-207 | a handler's step is possible exactly when its channel operation is, a running call can give up at every statement, registrations wait for the event loop and nothing else, and PUT takes up to 1048576 bytes |
| SyncKnowledge.ReachableKnown | sync_worker.go:117-187 | in every reachable state the nonces of sessions and calls are apart and known, an untaken nonce is in its channel, and every body that a handler works on is short enough and its document signed |
| SyncRecovery.DecryptsAgainIff | sync_worker.go:110-218 | from any reachable state, the worker decrypts keys in some continuation iff no key is in its channel and a running leader's keys can fit, or the session whose key is there has a taker that passes the checks or, untaken, a call that awaits its answer, heard it or has a document for it |
| SyncStuck.StuckForGood | sync_worker.go:110-113 | otherwise, along every continuation of the run, each GET is turned down and the worker decrypts nothing more |
| SyncRecovery.FailedPostEndsSyncing | sync_worker.go:187-205 | a POST that fails a check after it took the nonce of a complete session leads there |
| SyncRecovery.FailedCallEndsSyncing | sync_leader.go:63-93 | so does a call that gives up before it heard the document of the session that waits for it |
| SyncRecovery.StrayGetEndsSyncing | sync_worker.go:110-138 | so does, from any state with empty channels, a GET with a nonce that no call awaits an answer to |
| SyncRecovery.ZeroNonceIsStray | sync_worker.go:117-120 | the zero nonce of a GET that names none is such a nonce |
| SyncRecovery.StrayPostEndsSyncing | sync_worker.go:187-191 | so does a POST without a document, for every pending session |
| SyncLosses.LosingStepIff | sync_worker.go:110-218 | from any reachable state in which a worker can recover, a step of anybody takes that away iff it is one of these: a key whose nonce is taken or which no call awaits, a failed attestation, a nonce taken by a POST that will not pass, a failing check, the last decryption under a crashed leader, the leader's crash, a wrong answer to the call, a snapshot that does not fit, or the call giving up before its document is issued |
| SyncTheorems.Agreement | sync_leader.go:100-119 | whatever a worker decrypts equals the leader's keys at one instant after the session's attestation document was issued and before the decryption |
| SyncTheorems.SuccessMeansOneInstall | sync_leader.go:129-141 | a successful syncWith matches exactly one decryption in the whole system, by the addressed worker, of exactly its snapshot, and that one was installed |
| SyncTheorems.SessionsServeOneCall | sync_leader.go:54-94 | no two syncWith calls build on the same session |
| SyncTheorems.DecryptionsNeverRollBack | sync_worker.go:207-221 | in key-pop order, the snapshots that a worker decrypts were taken strictly one after the other and their versions never decrease, under any replay and reordering |
| SyncTheorems.InstallsAdvanceIffInOrder | sync_worker.go:221-228 | of two installations in a row the second is newer iff it was also decrypted second |
| SyncTheorems.FanOut | handlers.go:108-128 | after the dispatch of the PUT of version v, each worker registered then has exactly one call from it, its snapshot is at least v, and the call ends with v or later installed or with the worker out of the registry |
| SyncAccounts.RegistryIff | workers.go:44-61 | after any run a worker is in the leader's registry iff some step registered it and no later one pruned or unregistered it |
| SyncAccounts.RegistryRefines | workers.go:36-61 | the protocol's registry has the same workers as the event loop's map after the same events |
| SyncAccounts.TargetsIff | workers.go:63-78 | a PUT was dispatched iff the run has its dispatch, and its fan-out is for exactly the workers registered by then |
| SyncAccounts.RegistryIsFrozen | workers.go:36-78 | during a fan-out nobody gets in or out of the registry |
| SyncAccounts.FanOutReachesAll | handlers.go:108-128 | each worker registered at dispatch, by the run alone, has exactly one call from the PUT, with that outcome |
| SyncAccounts.FanOutReachesNoOther | workers.go:74-78 | a call from a PUT goes to a worker registered at its dispatch |
| SyncAccounts.GetsAreConserved | sync_worker.go:104-129 | every GET past the in-progress check is still waiting or has become exactly one session, for the worker and nonce that it named |
| SyncAccounts.PostsAreConserved | sync_worker.go:163-187 | every POST that was read is still waiting or has become exactly one handler with its body |
| SyncAccounts.HeartbeatsAreConserved | handlers.go:254-261 | every heartbeat leads to exactly one registration, done or waiting, or to exactly one call |
| SyncTheorems.AgreementLastsIff | handlers.go:254-261 | a worker that has the leader's keys still has them after any step of anybody iff the step is neither its own installation of other keys nor a PUT of other application keys |
| SyncTheorems.InSyncLastsIff | sync_worker.go:221-228 | the same in versions: between PUTs, a worker that got the leader's keys since the last one keeps that iff it does not install a snapshot from before it |
| SyncTheorems.InOrderInstallBreaksIff | sync_worker.go:221-228 | an installation in decryption order ends agreement iff its keys differ and its snapshot lies strictly between the worker's version and the leader's |
| SyncTheorems.InOrderInstallsAreFresh | sync_worker.go:221-228 | so it never does for a worker that got the leader's keys since the last PUT |
| SyncTheorems.SuccessEstablishesAgreement | sync_leader.go:137-141 | a successful call whose installation is the latest leaves the worker in agreement iff the leader's keys are still those of its snapshot |
| SyncTheorems.SameHashSameKeysIff | enclave_keys.go:75-82 | key sets with equal hashes are equal iff certificate and key have equal lengths |
| SyncTheorems.HashedLayout | enclave_keys.go:79 | the hash runs over certificate, key and application keys in this order |
| SyncTheorems.DifferentKeysSameHash | enclave_keys.go:79-81 | two different key sets with the same hash input |
| SyncTheorems.HeartbeatSyncsIffDifferent | handlers.go:255-261 | a heartbeat with the hash of a once-synced worker starts a sync iff its keys differ from the leader's and otherwise goes on to register it; one without a hash always starts a sync |
| SyncTheorems.TornInstallIsInvisibleIff | enclave_keys.go:49-52 | between the two critical sections of set, a worker already shows the new key set iff it has the leader's nitriding keys, as every once-synced worker does |
| SyncTheorems.DecryptedFits | sync_worker.go:171-176 | whatever a worker ever decrypts fitted into one request |
| SyncTheorems.AgreementNeedsRoom | handlers.go:109-114 | a once-synced worker has the leader's keys only while they fit into one request, so never after a PUT of more than 12192 bytes |
| SyncTheorems.HearDocCrashesIff | sync_leader.go:90-94 | the answer to a call's GET makes the leader panic iff it is a signed client document with the nonce of the call |
| SyncProgress.UndisturbedSyncGoesThrough | sync_leader.go:39-142 | a run from every state with a running leader at its select, keys that fit and empty channels, at the end of which the worker agrees with the leader and is registered besides those who were, with empty channels again |
| SyncProgress.SyncPossibleIff | sync_worker.go:171-228 | from every reachable state with a running leader and empty channels, the worker can be brought to agree with the leader's present keys iff they fit into one request |
| SyncProgress.InstallCanRollBackIff | sync_worker.go:207-228 | from every reachable state with a running leader and empty channels and for every PUT, there is a continuation that takes the worker from the new keys back to the old ones iff the PUT changes the keys and both key sets fit into a request |
| SyncProgress.InOrderInstallCanBreakIff | sync_worker.go:207-228 | under the same condition there is one, with the PUT and another that takes it back, in which a worker that has the leader's keys goes over to those in between, in decryption order |
| SyncProgress.RegistrationCanMissFanOut | handlers.go:255-260 | a run after which a worker is registered with other keys than the leader's and the fan-out of the last PUT has passed it by |
| SyncProgress.ClientDocCrashesLeader | handlers.go:209-222 | two steps from every state in which a call awaits its answer, a client's document makes the leader panic |
| SyncAbstraction.VerifyAgrees | attester.go:151-197 | for every way of writing the atoms of a run as bytes that keeps them apart, verification on bytes and on atoms agree for every genuine document and nonce, client documents included |
| SyncAbstraction.FieldsDetermineDoc | attester.go:107-126 | documents with equal signed fields are the same document, except for the hashes of clients |
| SyncAbstraction.RunIsCovered | attester.go:107-126 | the atoms of a reachable state cover all documents signed so far and all nonces that documents are verified against |
| SyncAbstraction.ChecksAgree | sync_worker.go:187-205 | in every reachable state and for every faithful way of writing its atoms, a handler gets through verification and hash check on bytes iff it does on atoms |
| SyncAbstraction.FaithfulIff | attester.go:107-126 | there is such a way iff the run has no more nonces, keys and digests than there are strings of 20 and 32 bytes |
| WorkerSession.WorkerSync.constructor | sync_worker.go:35-45 | a new worker has both channels empty |
| WorkerSession.WorkerSync.InitSync | sync_worker.go:104-159 | new channels and answer of a GET, for every branch, as InitStep of the old channels; of several answers the first counts |
| WorkerSession.WorkerSync.FinishSync | sync_worker.go:163-231 | new channels, answer and installed keys of a POST, for every branch, as functions of the old channels; of several answers the first counts |
| WorkerSession.Automaton | sync_worker.go:104-218 | what each request does in each of the four channel states; pending leads to idle iff the POST is certified for the nonce, wedged leads nowhere |
| WorkerSession.InstallsIff | sync_worker.go:171-228 | a POST installs keys iff it is short enough, carries a document signed for the same image with the taken nonce and the hash of its ciphertext, and the ciphertext opens with the key in the channel to those keys |
| WorkerSession.PostTransitions | sync_worker.go:171-207 | which POSTs leave the channels alone, which take the nonce, and which the key, too |
| WorkerSession.PostOutcomes | sync_worker.go:171-231 | exactly when a POST is answered 200 or 500, panics, or waits for a nonce or a key |
| WorkerSession.GetTransitions | sync_worker.go:104-138 | exactly when a GET leads from idle to pending, to nonce-only or nowhere, and with what in the channels |
| WorkerSession.GetOutcomes | sync_worker.go:104-158 | exactly when a GET is answered 429, 400, 500 or with a document, or waits |
| WorkerSession.GetDocument | sync_worker.go:141-158 | the document that answers a GET verifies, under the leader's nonce or the zero nonce, to the nonce and public key of the session that is then in the channels |
| WorkerSession.WedgedIff | sync_worker.go:187-207 | after any history the worker is wedged iff some POST in it found a pending session, was readable and was not certified |
| WorkerSession.PendingIsOneSession | sync_worker.go:122-138 | nonce and key in the channels stem from one and the same GET, which found both empty |
| WorkerSession.OversizedPostChangesNothing | sync_worker.go:171-176 | a POST that does not fit is refused and changes neither channel nor keys; with more than 12192 bytes of application keys none fits |
| SyncHandlers.GetStopsAlike | sync_worker.go:110-129 | a GET is turned down, or waits for the nonce channel, on bytes iff it does so in the protocol model |
| SyncHandlers.GetGoesAlike | sync_worker.go:104-158 | run alone from empty channels, both models leave the same in the channels and issue the same document, whichever way the handler goes |
| SyncHandlers.PostEndsAlike | sync_worker.go:187-231 | and in every reachable state both models install the same keys for it and answer 200 in the same cases |
| SyncHandlers.PostGoesAlike | sync_worker.go:163-207 | in every reachable state, a POST run alone leaves the same in the channels in both models, and waits in one iff in the other |
| Designation.StepKeeps | enclave.go:387-439 | the designation invariant is inductive over all steps of all enclaves |
| Designation.OneLeaderBehindEndpoint | enclave.go:396-439 | at most one enclave is ever leader, it is the one behind the leader's name, and that one becomes a worker only if it is stopped |
| Designation.LeaderIsSetUpBeforeWorkers | enclave.go:429-434 | when an enclave that was not stopped counts as a worker, the endpoint has concluded, and unless stopped it concluded that it leads, with event loop launched and heartbeat endpoint installed |
| Designation.LeaderIsSetUpBeforePut | enclave.go:396-417 | an enclave in state leader has its event loop, its heartbeat endpoint and its 410 handler in place |
| Designation.DecisionsAreFinal | enclave.go:379-403 | no continuation of a run changes a decided state |
| Designation.StoppedEnclaveJumpsTheQueue | enclave.go:423-424 | from every start, a run in which a stopped enclave counts as a worker before the endpoint concluded |
| Designation.DesignationGoesThrough | enclave.go:419-434 | from every start, a run in which the endpoint becomes leader and any other enclave a worker |
| Designation.DesignationCanSucceedIff | enclave.go:419-439 | from every reachable state, some continuation makes the endpoint leader and e a worker iff e is another enclave, neither has timed out and the endpoint was not stopped |
| Designation.FateIff | enclave.go:422-438 | an enclave has given up iff its run has a timeout of it, and then serves nothing; it counts as stopped iff it was stopped; no error ends a designation |
| Designation.RequestOutcomes | handlers.go:266-292 | a request to the endpoint is answered 410 iff the endpoint has concluded, fills the leader channel iff the endpoint asks itself while it compares and the channel is empty, and counts as an error otherwise |
| Designation.RequestsAreConserved | util.go:243-259 | every request sent is under way, being handled, answered but not heard, or heard, once |
| Designation.TokensAreConserved | handlers.go:266-292 | every filling of the leader channel is received once or still there |
| Registry.WorkerManager.constructor | workers.go:20-34 | the registry starts empty |
| Registry.WorkerManager.Prune | workers.go:44-51 | deleting while ranging leaves exactly the workers seen within the timeout |
| Registry.WorkerManager.RunForAll | workers.go:74-78 | one call per registered worker, no more and no less |
| Registry.WorkerManager.HandleEvent | workers.go:39-68 | effect of one round of the select statement |
| Registry.WorkerManager.Run | workers.go:31-70 | the loop computes After of the trace |
| Registry.RegisteredIff | workers.go:44-61 | after any trace a worker is in the map iff its last registration has no later unregistration and no later tick more than the timeout after it, and the map has the time of that registration |
| Registry.SilentWorkerIsGone | workers.go:44-51 | with ticks in every stretch of one timeout, a silent worker is gone within twice the timeout |
| Registry.LivelyWorkerStays | workers.go:44-56 | a worker whose registrations are never more than the timeout apart is in the map at every point |
| LengthRendezvous.StepKeeps | workers.go:66-84 | the loop owes a reply iff exactly one caller waits, kept by every rendezvous |
| LengthRendezvous.NobodyGetsStuck | workers.go:66-84 | with any number of callers, the loop in reply mode always has a taker and every caller can move on |
| LengthRendezvous.ResultIsSizeOrZero | workers.go:81-84 | a result is the current size, from the loop, or zero, from another caller |
| LengthRendezvous.SizeStaysWhileReplying | workers.go:66-67 | the number of workers does not change between a request and its reply |
| LengthRendezvous.LoneCallerGetsSize | workers.go:81-84 | a lone caller gets exactly the current size |
| LengthRendezvous.TwoCallersCanMeet | workers.go:81-84 | a run in which a caller gets zero for any size |
| Streams.ReadFull | proxy.go:150-161 | fills the range from the stream however it is cut, or reports which way it ended, properly or broken |
| Frames.Rx | proxy.go:120-143 | the connection gets the encoding of some frames and at most a proper part of the next, whichever write falls short or fails, and of all frames when the device ran out first |
| Frames.Tx | proxy.go:145-181 | delivers exactly what the stream decodes to; if a write to the device falls short or fails, the frames before that and any part of the one it was about |
| Frames.Relay | proxy.go:120-181 | rx into tx, however the stream is cut, wherever it breaks off and whatever it loses of the end: the far device gets the frames that arrived completely, up to the first empty one |
| Frames.LostEndIsCut | proxy.go:120-143 | what arrives of a cut stream is cut after some of the same frames |
| Frames.BrokenRoundTrip | proxy.go:120-181 | a stream cut anywhere in a frame decodes to the complete frames before it, up to the first empty one |
| Frames.RoundTrip | proxy.go:120-181 | decoding an encoding gives the frames up to the first empty one, hence all iff none is empty |
| Frames.DecodeIsMaximal | proxy.go:149-169 | on an arbitrary stream: nonempty frames whose encoding is a prefix, followed by no further complete nonempty frame |
| Frames.DecodeContainsAll | proxy.go:149-169 | every list of nonempty frames that begins the stream is delivered first |
| Frames.HeaderRoundTrip | proxy.go:131-159 | the 16-bit length of up to 65535 bytes never truncates |
| Frames.EncodeLayout | proxy.go:131-132 | where each frame is in the stream: its length, low byte first, and its bytes behind the frames before it |
| LimitedReading.LimitReader.Read | system.go:29-47 | one read of any length below the limit and at the limit, of a reader that ends or breaks; the limit shrinks by what was read and stays nonnegative |
| LimitedReading.ReadAll | system.go:29-54 | all data below the limit and an error above it or when the reader breaks, for every chunking; at the limit all data unless the reader returns nothing without an error |
| SyncBudget.ReadableIff | sync_worker.go:171-176 | a sync POST is readable iff document and twice-encoded keys, unset ones as null, fit in 21848 bytes, solved for the keys |
| SyncBudget.TextLengths | sync_leader.go:100-125 | the lengths are those of the JSON texts of keys and body with Base64 values |
| SyncBudget.FitsIff | sync_worker.go:171-176 | the same inequality in plain numbers and field lengths |
| SyncBudget.LargeAppKeysCannotSync | handlers.go:109-114 | no application keys over 12192 bytes fit, whatever the rest |
| SyncBudget.LargeRequestIsRefused | sync_worker.go:171-176 | the limited reader refuses a request that does not fit, however it is cut |
| Attestation.ArePCRsIdentical | attestation.go:67-88 | the loop with its early exits decides Matches |
| Attestation.MatchesIffEqualButParent | attestation.go:67-88 | for maps that both have or both lack PCR4, yes iff equal apart from PCR4 |
| Attestation.MatchesIsEquivalence | attestation.go:65-88 | among such maps it is reflexive, symmetric and transitive |
| Attestation.MatchesIsOneSided | attestation.go:67-88 | a map without PCR4 never matches one with it |
| Attestation.MatchesOneMoreIff | attestation.go:67-88 | a map with PCR4 matches one without it iff that one is ours without PCR4 and one register more |
| Attestation.MatchesIff | attestation.go:67-88 | the three cases together: the comparison says yes iff the registers are those of the same image |
| Attestation.MatchesButDiffers | attestation.go:65-88 | maps that match in one order only and have nothing in common |
| Attestation.RoleRoundTrip | attester.go:107-197 | verify after create returns the record iff it is a leader's, or a worker's whose key is not the padding, as no 32-byte key is |
| Attestation.VerifyOkIff | attester.go:151-197 | a document is accepted iff it is signed, from the same image, carries the expected nonce, and has the padding for a key or 20 bytes of user data |
| Attestation.VerifyErrors | attester.go:151-197 | exactly when the signature, the own registers, the image or the nonce are to blame |
| Attestation.VerifiedRecord | attester.go:181-196 | which record an accepted document gives, by its public-key field |
| Attestation.VerifiedFieldsAreCreated | attester.go:169-196 | create after verify returns the signed fields, and the record carries the expected nonce |
| Attestation.SerializeInjective | attestation.go:42-47 | the serialized hashes determine both hashes |
| Attestation.SerializeLayout | attestation.go:42-47 | each hash behind its two-byte prefix, the TLS hash first |
| Attestation.PaddingSpells | attester.go:17 | the padding for the public key |
| Attestation.ClientDocFailsHashCheck | sync_worker.go:199-205 | a client's document reads as a leader's with the serialized hashes but fails the hash check for every ciphertext |
| ExpiringCache.Cache.AdvanceTo | cache.go:33-39 | time passes and all due timers delete their keys |
| ExpiringCache.Cache.Add | cache.go:42-54 | the key is stored with the present time, the addition is recorded and starts its timer |
| ExpiringCache.Cache.Exists | cache.go:57-63 | a key is there iff its latest addition is less than the lifetime old and no timer of an earlier addition fired since |
| ExpiringCache.Cache.Count | cache.go:25-30 | the number of keys that are present, which is at most that of distinct keys added within the last lifetime |
| ExpiringCache.PresentIffSurvives | cache.go:33-54 | the timer-by-timer view and the view by times agree |
| ExpiringCache.ReAddingDoesNotExtend | cache.go:42-54 | a re-added key is gone when the timer of its earlier addition fires |

## Left out

- HTTP servers, routers, TLS, ACME, certificate creation, hostname lookup, TAP and netlink setup, entropy: I/O and foreign libraries.
- Strength of NaCl box, SHA-256 and COSE signatures: idealised as listed above.
- `dummyAttester`, metrics, buffer pool, certificate cache, command line, ready, root and config handlers: none of them touches keys, channels or the registry.
- Request retries of `registerWith` and the sleep between heartbeats: any number of heartbeats at any time covers them.
- The certificate scan of `setCertFingerprint` and the hexadecimal nonce text: a GET carries its parsed nonce or none, and client documents any hashes.
- A leader that heartbeats to itself: heartbeats are taken to name workers.
- Failure of `newNonce` and process exits in handlers: a handler that stops there has no further steps, which every run allows.
- SyncProtocol.DoInstall: both critical sections of set as one step; `TornInstallIsInvisibleIff` says what the gap shows.
- An enclave whose certificate comes from ACME: its nitriding keys are never set, so that no worker can use them.
- ExpiringCache.Cache.AdvanceTo: lifetimes are positive and timers fire promptly, before anything else that happens at the same time.
- Termination under a scheduler: that waiting handlers are eventually served is not claimed.
