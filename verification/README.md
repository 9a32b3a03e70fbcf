# Verified models of the distributed scheduling service

A Dafny 4.11 project that models the hand-written state machines and codecs of the DMS daemon and
proves what they guarantee.  `dafny verify dfyconfig.toml` checks all of it.

- **Connections between devices** (`ConnectTable`, `ConnectDevice`, `ConnectProtocol`,
  `ConnectSerial`, `ConnectAssumptions`, `ConnectLeaks`, `ConnectSettling`, `ConnectRest`,
  `ConnectStranding`, `ConnectQuota`, `ConnectOvershoot`).  `ConnectTable` defines what the tables are and how they change; the class in
  `ConnectDevice` is one device, with the erasing loops and the per-uid counters, and each of its
  methods performs a change of `ConnectTable`.  `ConnectProtocol` interleaves those same changes over
  any number of devices, one step per lock section, with calls, replies, disconnects, process-died
  notifications and offline cleanups in flight; `ConnectSerial` says what the events come to when they
  follow each other undisturbed.  `ConnectAssumptions` states exactly what the network
  must guarantee for the protocol to be free of leaked bindings; `ConnectLeaks` states the same state
  by state and event by event, for any network.  `ConnectSettling` and `ConnectRest` look at the other
  end: exactly when every session keeps its binding, and exactly when a dead caller
  is forgotten.  `ConnectQuota` and `ConnectOvershoot` say how far the quota can be overshot between
  its check and its commit.
- **Percent-decoding to a fixpoint** (`UrlDecoding`), section 2.1 of RFC 3986: a terminating,
  confluent rewriting system, and what the path check built on it guarantees.
- **Base64** (`Base64`), section 4 of RFC 4648, down to the byte buffers and masks.
- **Pending free installs** (`FreeInstall`, `FreeInstallProtocol`) and **pending continuations**
  (`Continuation`, `ContinuationDelivery`, `ContinuationTimers`): several threads race to end an entry,
  and each is answered once.
- **Tokens and ids** (`TokenRegistry`, `TokenSections`, `IdAllocators`, `CallTokens`): registries whose
  loops are right only because of global invariants, first with serial calls and then lock section by
  lock section, and wrap-around allocators.
- **Ability state observers** (`AppStateFilter`, `ObserverSharing`, `ObserverSections`), the table of
  shared observers again with serial calls and lock section by lock section.

## Assumptions

- A connect object belongs to one caller for its whole life; the model stores the caller in the
  object.  Caller fields that do not identify the caller are left out.
- A remote call over a working link returns the remote device's real result.  When a link breaks, both
  ends queue an offline cleanup, and the break may catch any of the calls over the link: their request
  may still be carried out, refused or lost.  A call that is not sent yet and a reply that the caller
  already holds are not caught.  Messages are lost only while their link is broken.
- The policy record of `ConnectProtocol` holds what else can be assumed of the network.
  `LeakFreeIffOrderly` shows that the protocol needs exactly the first two assumptions: a link returns
  only after both ends have dropped their sessions over it, and a caught request is over before the
  sink's cleanup.  The code enforces neither.  Its return of a device cancels a cleanup that has not
  started, which is the third field; that adds no leak where the first assumption holds, and
  `CancelledCleanupLeaks` is the leak it causes where it does not.
- A state settles when what is under way is finished and no new request, disconnect, death or link
  change occurs; the results about settling are paired with results about those events.
- Results of the ability, bundle, account, device and application managers, permission checks, clocks
  and message delivery are parameters of the methods or choices of the step systems.
- Loops over ordered maps visit the keys in an arbitrary order here, which includes the real one.
- Task ids are not reused while the free-install system is in use; `IdAllocators` shows that the first
  INT64_MAX ids are distinct.  Event ids are taken to be as wide as the ids put into them.
- The saved continuation token read at start lies between 0 and 100000000.

## Where code and expectation differ

- A mission that is continued again between the pop of its callback and the removal of its timers loses
  its new timer and stays pending for good (`LostTimeout`; exactly when: `EventKeepsTimeoutIff`).  A
  mission id that is not positive is accepted, but its timeout is ignored
  (`TimeoutGuaranteedIffPositive`).
- A refused observer registration keeps its slot, and later callers of the bundle join it without being
  observed (`RefusedRegistrationLeavesDeadSlot`).
- A registration and an unregistration of one bundle that get between each other's lock sections leave
  an entry whose observer is deregistered, and a second observer for the bundle (`LostObserver`; exactly
  when: `ObserverSections.EventHarmlessIff`).
- A notifier can be attached to a token that has just been unregistered (`NotifierLeft`; exactly when:
  `TokenSections.EventHarmlessIff`), and a caller can exceed 600 tokens, by exactly the number of
  registrations in flight minus one (`LimitHolds`, `LimitAttained`).
- A disconnect, or the death of the caller, that overtakes the recording of a second connect of the same
  object leaves a session, and its place in the quota, without a binding (`SecondConnectStrands`;
  exactly when: `EventHarmlessIff`, `ForgottenIff`).
- The quota of 600 can be exceeded by concurrent connects, by exactly the number in flight minus one
  (`QuotaHolds`, `QuotaBoundAttained`).

## Model

| member | source | states |
|---|---|---|
| `ConnectAssumptions.LeakFreeIffOrderly` | services/dtbschedmgr/src/distributed_sched_service.cpp:3229-3387 | the protocol never comes to rest with a leaked binding if and only if a link returns after both ends dropped their sessions and caught requests end before the sink's cleanup, whether or not a returning device cancels cleanups |
| `ConnectAssumptions.OrderlyIsLeakFree` | services/dtbschedmgr/src/distributed_sched_service.cpp:2408-2418 | under the two assumptions: when nothing is in flight, every binding on every device belongs to a live session of its caller, for every run over any set of devices |
| `ConnectAssumptions.EarlyLinkUpLeaks` | services/dtbschedmgr/src/distributed_sched_service.cpp:3344-3370 | a concrete run that leaks when a link returns before the caller's device has dropped its old sessions |
| `ConnectAssumptions.LateOrphanLeaks` | services/dtbschedmgr/src/distributed_sched_service.cpp:3201-3210 | a concrete run that leaks when a caught connect request is recorded after the sink's offline cleanup |
| `ConnectAssumptions.CancelledCleanupLeaks` | services/dtbschedmgr/src/distributed_sched_adapter.cpp:115-149 | a concrete run without any cleanup that leaks: connect, link drop, disconnect while the link is down, return of the device, which cancels the queued cleanups at both ends |
| `ConnectLeaks.SettlesLeakFreeIff` | services/dtbschedmgr/src/distributed_sched_service.cpp:3229-3387 | from any reachable state, under any policy: however the traffic settles no binding is leaked, if and only if every connect and device either keeps its session, or has no request that binds it too late and, if bound, a removal that is sure to come |
| `ConnectLeaks.EventLeaksIff` | services/dtbschedmgr/src/distributed_sched_service.cpp:3229-3387 | in such a state an event endangers the removal of a binding if and only if it is one of the listed ones: a connect or a return before old sessions are dropped, a disconnect or death that cannot reach the sink, a drop that catches a request, a cancelled cleanup of a binding without session |
| `ConnectLeaks.SettlesAgreeingIff` | services/dtbschedmgr/src/distributed_sched_service.cpp:3229-3387 | sessions and bindings agree at rest, however the traffic settles, if and only if neither condition is violated |
| `ConnectLeaks.StepAccountedIff` | services/dtbschedmgr/src/distributed_sched_service.cpp:3229-3387 | a step from a state without loose ends leads to another one if and only if it is not one of those events |
| `ConnectLeaks.LooseEndLeaks` | services/dtbschedmgr/src/distributed_sched_service.cpp:3201-3210 | for every loose end there is a run that only finishes what is under way and ends with a leaked binding |
| `ConnectRest.SettlesBoundIffNoOverlap` | services/dtbschedmgr/src/distributed_sched_service.cpp:3242-3271 | from any reachable state, under any policy: however the traffic settles every session has its binding at the end, if and only if no removal on its way meets a lasting session, a held reply or a call of the same connect and device |
| `ConnectRest.EventHarmlessIff` | services/dtbschedmgr/src/distributed_sched_service.cpp:2408-2418 | in such a state an event endangers a session if and only if it overlaps: a connect during a removal, a disconnect or death during a call, a drop with a reply held, a return before the sink's cleanup, a cancelled cleanup of a lost binding |
| `ConnectRest.EndsAgree` | services/dtbschedmgr/src/distributed_sched_service.cpp:3201-3210 | every run without overlapping events comes to rest with a binding behind every session, and under the two network assumptions with no other binding |
| `ConnectRest.SessionsForgottenIff` | services/dtbschedmgr/src/distributed_sched_service.cpp:3459-3508 | no session of a dead caller is left at rest, whatever follows, if and only if none of its calls was unfinished at its death; under any policy |
| `ConnectRest.ForgottenIff` | services/dtbschedmgr/src/distributed_sched_service.cpp:3459-3508 | the same for sessions and bindings together, under the two network assumptions |
| `ConnectRest.LateSession` | services/dtbschedmgr/src/distributed_sched_service.cpp:2413-2417 | for every unfinished call at the death of its caller there is a run that stores its session for good without any further act of a caller |
| `ConnectRest.Drain` | services/dtbschedmgr/src/distributed_sched_service.cpp:2402-2427 | from every reachable state the system can come to rest, keeping every session that no queued cleanup drops |
| `ConnectStranding.SecondConnectStrands` | services/dtbschedmgr/src/distributed_sched_service.cpp:3242-3271 | a concrete run of eight events, with a disconnect or with a death, that leaves a counted session without a binding |
| `ConnectSettling.StepApart` | services/dtbschedmgr/src/distributed_sched_service.cpp:3229-3387 | a step from a state without overlaps leads to another one if and only if it is not an overlapping event |
| `ConnectSettling.StepSound` | services/dtbschedmgr/src/distributed_sched_service.cpp:2267-2297 | under any policy every step keeps tables well-formed, sessions and messages within the known devices |
| `ConnectProtocol.AlwaysJustified` | services/dtbschedmgr/src/distributed_sched_service.cpp:3242-3271 | in every state of every run under the two assumptions, each binding is justified by a live session, an uncommitted reply, a disconnect or obituary on its way, or the sink's queued cleanup |
| `ConnectProtocol.StepKeepsInv` | services/dtbschedmgr/src/distributed_sched_service.cpp:2408-2418 | every event of the protocol keeps the invariant behind that justification |
| `ConnectProtocol.RunKeepsInv` | services/dtbschedmgr/src/distributed_sched_service.cpp:2408-2418 | so does every run |
| `ConnectProtocol.ExecuteKeepsInv` | services/dtbschedmgr/src/distributed_sched_service.cpp:3201-3210 | accepting a connect over a working link leaves the new binding covered by the reply |
| `ConnectProtocol.CommitKeepsInv` | services/dtbschedmgr/src/distributed_sched_service.cpp:2413-2418 | committing turns a pending reply into a live session without losing any justification |
| `ConnectProtocol.DisconnectKeepsInv` | services/dtbschedmgr/src/distributed_sched_service.cpp:3242-3271 | a disconnect replaces every session by a message on its way |
| `ConnectProtocol.ProcessDiedKeepsInv` | services/dtbschedmgr/src/distributed_sched_service.cpp:3480-3507 | the same for the death of a caller and all its connects |
| `ConnectProtocol.DeliverKeepsInv` | services/dtbschedmgr/src/distributed_sched_service.cpp:3295-3338 | a delivered message removes exactly the bindings that it justified |
| `ConnectProtocol.DropKeepsInv` | services/dtbschedmgr/src/distributed_sched_adapter.cpp:131-149 | a broken link, whichever calls and replies it catches, leaves what they justified to the two queued cleanups |
| `ConnectProtocol.CleanSourceKeepsInv` | services/dtbschedmgr/src/distributed_sched_service.cpp:3344-3370 | dropping the sessions towards a lost device leaves no unjustified binding there |
| `ConnectProtocol.CleanSinkKeepsInv` | services/dtbschedmgr/src/distributed_sched_service.cpp:3372-3387 | dropping the bindings for a lost device consumes their justification and no other |
| `ConnectProtocol.RunOrphanKeepsInv` | services/dtbschedmgr/src/distributed_sched_service.cpp:3201-3210 | a caught request that still finds the sink's cleanup queued is harmless |
| `ConnectProtocol.LoseKeepsInv` | services/dtbschedmgr/src/distributed_sched_service.cpp:3214-3227 | a disconnect or notification that finds its link broken leaves the binding to the sink's cleanup |
| `ConnectProtocol.LoseOrphanKeepsInv` | services/dtbschedmgr/src/distributed_sched_service.cpp:3182-3201 | a caught request that is refused or lost leaves nothing behind |
| `ConnectProtocol.NothingToCancel` | services/dtbschedmgr/src/distributed_sched_adapter.cpp:115-129 | where sessions are dropped before a link returns, the return finds no cleanup to cancel |
| `ConnectProtocol.QuiescentHasNoLeak` | services/dtbschedmgr/src/distributed_sched_service.cpp:3201-3210 | the invariant in a quiet state means that no binding is leaked |
| `ConnectSerial.ConnectInARow` | services/dtbschedmgr/src/distributed_sched_service.cpp:2340-2430 | asking, accepting and recording a connect in a row leads to the connected state |
| `ConnectSerial.ConnectedMeans` | services/dtbschedmgr/src/distributed_sched_service.cpp:2267-2297 | there the connect keeps its earlier elements and has the new one on its device, the sink has its binding with the element of the first connect, and nothing else has changed |
| `ConnectSerial.RefusedInARow` | services/dtbschedmgr/src/distributed_sched_service.cpp:2402-2427 | a call that is refused or finds no link leaves nothing behind |
| `ConnectSerial.DisconnectUndoes` | services/dtbschedmgr/src/distributed_sched_service.cpp:3229-3312 | disconnecting a new connect object and delivering the disconnect gives the system back exactly |
| `ConnectSerial.DeathUndoes` | services/dtbschedmgr/src/distributed_sched_service.cpp:3314-3340 | so do the death of a new caller and its notification |
| `ConnectSerial.OutageInARow` | services/dtbschedmgr/src/distributed_sched_service.cpp:3342-3388 | a link breaks, both ends clean up, the link returns: the state is the one cut off between the two devices |
| `ConnectSerial.SessionsCutOff` | services/dtbschedmgr/src/distributed_sched_service.cpp:3346-3370 | there exactly the sessions between the two devices are gone |
| `ConnectSerial.BindingsCutOff` | services/dtbschedmgr/src/distributed_sched_service.cpp:3372-3387 | and exactly the bindings |
| `ConnectSerial.AtMostThreeAttempts` | services/dtbschedmgr/src/distributed_sched_service.cpp:2402-2427 | over every run a call is tried at least once and at most three times |
| `ConnectQuota.QuotaHolds` | services/dtbschedmgr/src/distributed_sched_service.cpp:2299-2311 | with at most K connects of a uid between check and commit, stored plus pending connections never exceed 599 + K, over every run and under any network policy |
| `ConnectQuota.SerialQuota` | services/dtbschedmgr/src/distributed_sched_service.cpp:2363-2369 | used one connect at a time, a uid never stores more than 600 connections |
| `ConnectQuota.StepKeepsQuota` | services/dtbschedmgr/src/distributed_sched_service.cpp:2413-2417 | every event keeps that bound |
| `ConnectOvershoot.QuotaBoundAttained` | services/dtbschedmgr/src/distributed_sched_service.cpp:2363-2369 | the bound is exact: for every K there is a run that stores 599 + K connections |
| `ConnectDevice.DmsDevice.RemoteConnectAbilityMappingLocked` | services/dtbschedmgr/src/distributed_sched_service.cpp:2267-2297 | recording a connect keeps all its elements and adds the new one, at the end of those on its device, unless it is there; no other connect changes, and the counters still equal the table |
| `ConnectDevice.AddElement` | services/dtbschedmgr/src/distributed_sched_service.cpp:3543-3551 | an element is added at the end, once |
| `ConnectDevice.ExtendSessions` | services/dtbschedmgr/src/distributed_sched_service.cpp:2285-2296 | the first session towards the device gets the element, else a new session is opened at the end |
| `ConnectTable.ExtendedOk` | services/dtbschedmgr/src/distributed_sched_service.cpp:2285-2296 | destinations and elements stay distinct; the elements on that device get that element at the end unless they have it, all others stay |
| `ConnectTable.MappedElements` | services/dtbschedmgr/src/distributed_sched_service.cpp:2274-2296 | for every connect and device, which elements are recorded after a connect, in terms of those before |
| `ConnectTable.InsertionIncreases` | services/dtbschedmgr/src/distributed_sched_service.cpp:2275-2279 | storing a new connect raises its uid's counter and no other |
| `ConnectTable.RemovalDecreases` | services/dtbschedmgr/src/distributed_sched_service.cpp:2313-2330 | removing a connect lowers its uid's counter and no other, and no zero entry is kept |
| `ConnectTable.ReplacementKeepsCounts` | services/dtbschedmgr/src/distributed_sched_service.cpp:3350-3367 | changing the sessions of a stored connect leaves all counters right |
| `ConnectTable.MappedOwned` | services/dtbschedmgr/src/distributed_sched_service.cpp:2274-2296 | recording a connect stores at most that one connect more for its uid |
| `ConnectDevice.DmsDevice.CheckDistributedConnectLocked` | services/dtbschedmgr/src/distributed_sched_service.cpp:2299-2311 | accepts exactly uids that are not negative and store fewer than 600 connects, with the right error otherwise |
| `ConnectDevice.DmsDevice.DecreaseConnectLocked` | services/dtbschedmgr/src/distributed_sched_service.cpp:2313-2330 | one connection less for a known uid, the entry erased at zero, nothing else touched |
| `ConnectDevice.DmsDevice.TryConnectRemoteAbility` | services/dtbschedmgr/src/distributed_sched_service.cpp:2390-2430 | at most three attempts; another one is made exactly after a quick reply other than success and the two final error codes; the connect is recorded exactly when the last reply is success |
| `ConnectDevice.DmsDevice.ConnectRemoteAbility` | services/dtbschedmgr/src/distributed_sched_service.cpp:2340-2388 | all refusals in order with their codes, attempts exactly if there is none; the connect is recorded exactly on success, and a call that adds a connection for a uid leaves it with at most 600 |
| `ConnectDevice.DmsDevice.ConnectAbilityFromRemote` | services/dtbschedmgr/src/distributed_sched_service.cpp:3162-3212 | a binding is recorded exactly on success, a repeated connect keeps the first one, with the error cases in the source's order |
| `ConnectDevice.DmsDevice.DisconnectRemoteAbility` | services/dtbschedmgr/src/distributed_sched_service.cpp:3229-3275 | unless device management refuses, exactly that connect is forgotten, the counter follows, and each device it reached is told once, in session order |
| `ConnectDevice.DmsDevice.DisconnectAbilityFromRemote` | services/dtbschedmgr/src/distributed_sched_service.cpp:3277-3312 | the binding is removed whenever the request is well-formed; result codes for missing bindings |
| `ConnectDevice.DmsDevice.NotifyProcessDiedFromRemote` | services/dtbschedmgr/src/distributed_sched_service.cpp:3314-3340 | the erasing loop removes exactly the bindings of the dead caller and leaves the others as they are; an error of the ability manager is handed on |
| `ConnectDevice.DmsDevice.ProcessConnectDied` | services/dtbschedmgr/src/distributed_sched_service.cpp:3459-3508 | the erasing loop removes exactly the connects of the dead caller, leaves the others as they are, and lists each device that one of them had a session towards exactly once, by its id |
| `ConnectDevice.CollectNotices` | services/dtbschedmgr/src/distributed_sched_service.cpp:3485-3496 | the notice list grows by the ids of the devices of a session list that it does not name yet |
| `ConnectDevice.NotifyKeyInjective` | services/dtbschedmgr/src/distributed_sched_service.cpp:3489-3491 | the textual key of a notified device identifies it |
| `ConnectDevice.DmsDevice.RemoveConnectAbilityInfo` | services/dtbschedmgr/src/distributed_sched_service.cpp:3342-3388 | both erasing loops of an offline device: its sessions and bindings are gone, the rest is unchanged, counters agree, and each dropped session is reported once |
| `ConnectDevice.EraseSession` | services/dtbschedmgr/src/distributed_sched_service.cpp:3350-3358 | erasing the first session towards a device erases all of them |
| `ConnectTable.WithoutDeviceOk` | services/dtbschedmgr/src/distributed_sched_service.cpp:3346-3370 | after offline handling a connect is kept exactly if it has a session elsewhere, with exactly those sessions |
| `ConnectTable.WithoutCallerOk` | services/dtbschedmgr/src/distributed_sched_service.cpp:3480-3505 | after a caller's death exactly its connects are gone and the others have their sessions as before |
| `ConnectTable.MappedOk` | services/dtbschedmgr/src/distributed_sched_service.cpp:2274-2296 | after recording, the live sessions are the old ones and the new one |
| `UrlDecoding.EscapeMeans` | services/dtbschedmgr/src/distributed_sched_permission.cpp:84-101 | an escape is `%` and two hexadecimal digits in either case, and denotes sixteen times the first plus the second |
| `UrlDecoding.ContractMeans` | services/dtbschedmgr/src/distributed_sched_permission.cpp:84-101 | contracting replaces those three characters by the denoted one and touches nothing else |
| `UrlDecoding.PassLength` | services/dtbschedmgr/src/distributed_sched_permission.cpp:84-101 | a pass shortens the string by two per escape of its input: each is contracted once |
| `UrlDecoding.Diamond` | services/dtbschedmgr/src/distributed_sched_permission.cpp:84-101 | escapes never overlap: two of them can be contracted in either order with the same result |
| `UrlDecoding.ContractKeepsNormalForm` | services/dtbschedmgr/src/distributed_sched_permission.cpp:103-112 | whichever escape is decoded first, the fully decoded string is the same |
| `UrlDecoding.NormalFormIsUnique` | services/dtbschedmgr/src/distributed_sched_permission.cpp:103-112 | any order of decoding that runs to its end reaches the one normal form, and nothing else is one |
| `UrlDecoding.Confluence` | services/dtbschedmgr/src/distributed_sched_permission.cpp:103-112 | any two partial decodings of a string meet again |
| `UrlDecoding.SingleUrlDecode` | services/dtbschedmgr/src/distributed_sched_permission.cpp:84-101 | the index-skipping loop contracts exactly the escapes of the input, left to right |
| `UrlDecoding.PassReaches` | services/dtbschedmgr/src/distributed_sched_permission.cpp:84-101 | one pass is a sequence of single contractions |
| `UrlDecoding.PassProgress` | services/dtbschedmgr/src/distributed_sched_permission.cpp:84-101 | a pass is the identity exactly on strings without a valid escape and shortens every other string |
| `UrlDecoding.UrlDecode` | services/dtbschedmgr/src/distributed_sched_permission.cpp:103-112 | terminates on every input with the unique normal form; changes the input exactly if it holds a valid escape |
| `UrlDecoding.IsDistributedFile` | services/dtbschedmgr/src/distributed_sched_permission.cpp:780-792 | accepts exactly if the fully decoded path is the directory followed by some rest and cannot be split around a `..` |
| `UrlDecoding.ContainsDotDotMeans` | services/dtbschedmgr/src/distributed_sched_permission.cpp:783 | the test finds `..` exactly if the string is something, `..` and something |
| `UrlDecoding.VerdictIsSpellingIndependent` | services/dtbschedmgr/src/distributed_sched_permission.cpp:780-792 | two paths that decode to a common string get the same verdict |
| `UrlDecoding.VerdictIgnoresEncodingLayers` | services/dtbschedmgr/src/distributed_sched_permission.cpp:780-792 | any number of partial encoding layers leaves the verdict unchanged |
| `UrlDecoding.SpellingDecodes` | services/dtbschedmgr/src/distributed_sched_permission.cpp:84-101 | any mixture of literal and escaped characters decodes to the string it spells |
| `UrlDecoding.EncodingRoundTrip` | services/dtbschedmgr/src/distributed_sched_permission.cpp:84-101 | percent-encoding any set of bytes spells the path; if `%` is among them one pass gives it back |
| `UrlDecoding.HexDigitTable` | services/dtbschedmgr/src/distributed_sched_permission.cpp:70-82 | the digit function accepts exactly the sixteen digits in both cases, with their values |
| `UrlDecoding.AcceptedPathNeverShowsDotDot` | services/dtbschedmgr/src/distributed_sched_permission.cpp:780-792 | an accepted path shows no `..` at any later stage of decoding |
| `UrlDecoding.PlainPathVerdict` | services/dtbschedmgr/src/distributed_sched_permission.cpp:780-792 | a path that literally starts with the directory is refused only for `..` |
| `Base64.Base64Encode` | common/src/distributed_sched_utils.cpp:95-143 | the buffer-filling loops compute the encoding of section 4 of RFC 4648 |
| `Base64.Base64Decode` | common/src/distributed_sched_utils.cpp:145-195 | the loops decode the letter run; the filler behind an incomplete group reaches no byte of the result |
| `Base64.RoundTrip` | common/src/distributed_sched_utils.cpp:95-195 | decoding an encoding gives the bytes back, for every byte string |
| `Base64.RoundTripBack` | common/src/distributed_sched_utils.cpp:145-195 | re-encoding gives the text back if and only if it is canonical (section 3.5 of RFC 4648) |
| `Base64.EncodingLength` | common/src/distributed_sched_utils.cpp:126-141 | the encoding of n bytes has 4 * ceil(n / 3) characters |
| `Base64.DecodingLength` | common/src/distributed_sched_utils.cpp:158-194 | every text decodes to exactly floor(3k / 4) bytes, k the length of its letter run |
| `Base64.DecodingIgnoresRest` | common/src/distributed_sched_utils.cpp:158-159 | what follows the first character outside the alphabet is never looked at |
| `Base64.EncodeThenDecode` | common/src/distributed_sched_utils.cpp:95-195 | the two methods in a row return their input, within the int length limit |
| `Base64.EncodingBits` | common/src/distributed_sched_utils.cpp:111-141 | the digits of a group are the bits of its bytes, six by six, most significant first; missing bits are zero and missing digits padding |
| `Base64.EncodingConcat` | common/src/distributed_sched_utils.cpp:106-141 | whole groups are encoded one by one |
| `Base64.DecodingBits` | common/src/distributed_sched_utils.cpp:165-193 | the bytes of a group are the bits of its digits, eight by eight; bits that fill no byte are dropped |
| `Base64.DecodingConcat` | common/src/distributed_sched_utils.cpp:158-193 | whole groups are decoded one by one |
| `Base64.GroupRoundTrip` | common/src/distributed_sched_utils.cpp:111-115 | the four digits denote the same 24-bit number as the three bytes and give them back |
| `Base64.GroupRoundTripBack` | common/src/distributed_sched_utils.cpp:165-169 | the three bytes denote the same 24-bit number as the four digits and give them back |
| `Base64.SplitMasks` | common/src/distributed_sched_utils.cpp:111-115 | the encoder's masks and shifts select the digits of the 24-bit group |
| `Base64.JoinMasks` | common/src/distributed_sched_utils.cpp:165-169 | the decoder's masks and shifts select the bytes of the group as soon as their digits are valid |
| `Base64.AlphabetTable` | common/include/distributed_sched_utils.h:28 | the letter function reads the published alphabet |
| `Base64.EncodeTail` | common/src/distributed_sched_utils.cpp:125-141 | an incomplete last group, zero-filled and padded |
| `Base64.DecodeTail` | common/src/distributed_sched_utils.cpp:177-193 | an incomplete last group yields the bytes its letters determine, whatever the filler |
| `FreeInstallProtocol.DeliveredExactlyOnce` | services/dtbschedmgr/src/distributed_sched_service.cpp:4179-4203 | under every interleaving of completion, timeout, start failure and device loss a plain start is in exactly one place and delivered at most once; exactly once when all timers and threads are done |
| `FreeInstallProtocol.TimersMatchTable` | services/dtbschedmgr/src/dms_callback_task.cpp:68-107 | a timer is armed only while its entry is in the table, and every entry has an armed or fired timer |
| `FreeInstallProtocol.StepKeepsInv` | services/dtbschedmgr/src/distributed_sched_service.cpp:3981-4013 | every lock section keeps conservation and timers |
| `FreeInstallProtocol.RunKeepsInv` | services/dtbschedmgr/src/distributed_sched_service.cpp:3981-4013 | so does every run |
| `FreeInstallProtocol.PopKeepsInv` | services/dtbschedmgr/src/dms_callback_task.cpp:92-107 | a successful pop moves an entry from the table to one thread |
| `FreeInstallProtocol.ReportKeepsInv` | services/dtbschedmgr/src/distributed_sched_service.cpp:4205-4237 | reporting turns a held entry into one delivery |
| `FreeInstallProtocol.OfflineKeepsInv` | services/dtbschedmgr/src/dms_callback_task.cpp:166-181 | losing a device delivers and erases its entries in one step |
| `FreeInstallProtocol.ContinuationNotReported` | services/dtbschedmgr/src/distributed_sched_service.cpp:4187-4201 | a task pushed as a continuation is read back as one: unless its start fails or a device is lost, no interleaving reports it as a plain start |
| `FreeInstallProtocol.TimerFiresOnce` | services/dtbschedmgr/src/dms_callback_task.cpp:68-107 | over every run the timer of a task goes off at most once, and never before the task is pushed |
| `FreeInstallProtocol.CompletionInARow` | services/dtbschedmgr/src/distributed_sched_service.cpp:4187-4201 | a completion on its own takes the entry and its timer away and reports it exactly if it is a plain start with a callback |
| `FreeInstallProtocol.FailedStartInARow` | services/dtbschedmgr/src/distributed_sched_service.cpp:4007-4012 | a failed start on its own takes them away and reports the entry whatever its type |
| `FreeInstallProtocol.OfflineMeans` | services/dtbschedmgr/src/dms_callback_task.cpp:166-181 | losing a device takes exactly its entries and timers away and reports each that has a callback |
| `FreeInstall.DmsCallbackTask.PushCallback` | services/dtbschedmgr/src/dms_callback_task.cpp:47-90 | stores and arms exactly if id, callback, handler and event are valid and the id is new; else changes nothing |
| `FreeInstall.DmsCallbackTask.PopCallback` | services/dtbschedmgr/src/dms_callback_task.cpp:92-107 | returns the entry once and disarms its timer; an empty item otherwise |
| `FreeInstall.DmsCallbackTask.GetLaunchType` | services/dtbschedmgr/src/dms_callback_task.cpp:150-164 | the stored launch type, a plain start when unknown |
| `FreeInstall.DmsCallbackTask.NotifyDeviceOffline` | services/dtbschedmgr/src/dms_callback_task.cpp:166-181 | the erasing loop removes exactly the entries of the device, disarms them and reports each once |
| `ContinuationDelivery.AtMostOneResult` | services/dtbschedmgr/src/distributed_sched_service.cpp:2138-2158 | each pushed callback is waiting, held by one thread, answered once or abandoned once, under every interleaving of the lock sections |
| `ContinuationDelivery.AnsweredUnlessAbandoned` | services/dtbschedmgr/src/distributed_sched_service.cpp:2138-2158 | only notified continuations get a result and only abandoned ones end without: at rest, in runs without a failed install check, every callback that is not waiting has been sent its result |
| `ContinuationDelivery.NotifyInARow` | services/dtbschedmgr/src/distributed_sched_continuation.cpp:319-339 | a notification on its own sends the result to the callback its mission waits with |
| `ContinuationDelivery.StepKeepsInv` | services/dtbschedmgr/src/distributed_sched_continuation.cpp:185-261 | every lock section keeps that count |
| `ContinuationDelivery.RunKeepsInv` | services/dtbschedmgr/src/distributed_sched_continuation.cpp:185-261 | so does every run |
| `ContinuationTimers.SettlesTimedIffNotDoomed` | services/dtbschedmgr/src/distributed_sched_continuation.cpp:319-358 | lock section by lock section: a pending mission can be left without timer and thread if and only if no thread will end it and its timers are gone, about to be removed by a thread past its pop, or ignored |
| `ContinuationTimers.EventKeepsTimeoutIff` | services/dtbschedmgr/src/distributed_sched_service.cpp:1670-1682 | an event puts the timeout of a mission at risk if and only if it pushes the mission while a thread is between pop and timer removal and none will end it, or its id is not positive |
| `ContinuationTimers.StepDoomsIff` | services/dtbschedmgr/src/distributed_sched_continuation.cpp:105-121 | from a state that is not at risk, exactly those events lead into one |
| `ContinuationTimers.DoomedIsStranded` | services/dtbschedmgr/src/distributed_sched_continuation.cpp:319-322 | a mission at risk is left pending for good by some order of the threads under way |
| `ContinuationTimers.LostTimeout` | services/dtbschedmgr/src/distributed_sched_continuation.cpp:319-322 | the run: push, arm, pop, push again, arm again, and the late removal takes the new timer |
| `ContinuationTimers.TimeoutGuaranteedIffPositive` | services/dtbschedmgr/src/distributed_sched_continuation.cpp:341-358 | over every run in which a mission is never pushed between pop and timer removal, it has a timer, or a thread that will set one or end it, whenever it is pending, if and only if its id is positive |
| `ContinuationTimers.ApartIsNotDoomed` | services/dtbschedmgr/src/distributed_sched_service.cpp:1593-1688 | no such run puts a mission with a positive id at risk |
| `ContinuationTimers.ContinueInARow` | services/dtbschedmgr/src/distributed_sched_service.cpp:1670-1682 | on its own, continuing a mission makes it pending with one more timer |
| `ContinuationTimers.InstallInARow` | services/dtbschedmgr/src/distributed_sched_service.cpp:1593-1616 | a free install does the same if the check succeeds, and otherwise ends the mission and leaves it no timer |
| `ContinuationTimers.InstallCheckedInARow` | services/dtbschedmgr/src/bundle/bundle_manager_callback_stub.cpp:48-68 | a positive install check leaves the mission exactly one timer |
| `ContinuationTimers.StartInARow` | services/dtbschedmgr/src/distributed_sched_service.cpp:1952-1975 | starting a continuation sets one more timer exactly if it is not pending |
| `ContinuationTimers.NotifyInARow` | services/dtbschedmgr/src/distributed_sched_service.cpp:2138-2158 | a result ends the mission and leaves it no timer |
| `ContinuationTimers.FireInARow` | services/dtbschedmgr/src/distributed_sched_continuation.cpp:341-358 | a timer that goes off ends its mission, or is ignored if the id is not positive |
| `Continuation.DSchedContinuation.PushCallback` | services/dtbschedmgr/src/distributed_sched_continuation.cpp:185-211 | callback, device and flag are stored together or not at all |
| `Continuation.DSchedContinuation.PopCallback` | services/dtbschedmgr/src/distributed_sched_continuation.cpp:237-261 | a mission leaves all tables at once; the device map's keys stay the callback map's keys and the flags a subset |
| `Continuation.DSchedContinuation.SetTimeOut` | services/dtbschedmgr/src/distributed_sched_continuation.cpp:105-112 | one more timer of the mission, if the handler exists |
| `Continuation.DSchedContinuation.RemoveTimeOut` | services/dtbschedmgr/src/distributed_sched_continuation.cpp:114-121 | all timers of the mission are gone |
| `Continuation.DSchedContinuation.IsFreeInstall` | services/dtbschedmgr/src/distributed_sched_continuation.cpp:123-132 | true exactly for pending missions pushed with the flag |
| `Continuation.DSchedContinuation.SetCleanMissionFlag` | services/dtbschedmgr/src/distributed_sched_continuation.cpp:360-364 | the first setting counts |
| `Continuation.DSchedContinuation.NotifyMissionCenterResult` | services/dtbschedmgr/src/distributed_sched_continuation.cpp:319-339 | the result goes to the callback that was pending, which is then gone together with its timers |
| `TokenRegistry.RunKeepsInv` | services/dtbabilitymgr/src/distributed_ability_manager_service.cpp:178-252 | over every serial run that never issues a token while a whole number of rounds older one is live: no empty list, tokens unique across callers, at most 600 per caller, notifiers only on live tokens |
| `TokenRegistry.ReachableInv` | services/dtbabilitymgr/src/distributed_ability_manager_service.cpp:178-252 | the same for every state reached from the empty registry, whatever the saved token |
| `TokenRegistry.StepKeepsInv` | services/dtbabilitymgr/src/distributed_ability_manager_service.cpp:178-252 | every call keeps that invariant |
| `TokenRegistry.RegisterKeepsInvIff` | services/dtbabilitymgr/src/distributed_ability_manager_service.cpp:376-390 | a registration keeps it if and only if no live token is a whole number of rounds old |
| `TokenRegistry.EarlyBreak` | services/dtbabilitymgr/src/distributed_ability_manager_service.cpp:195-206 | leaving the loop at the first emptied list equals visiting all lists, given the invariant |
| `TokenRegistry.EarlyBreakNeedsInvariant` | services/dtbabilitymgr/src/distributed_ability_manager_service.cpp:195-206 | without it, an empty list visited first leaves the token in place |
| `TokenRegistry.RemovedExactly` | services/dtbabilitymgr/src/distributed_ability_manager_service.cpp:195-206 | removing a token removes it and nothing else; every other token stays with its caller |
| `TokenRegistry.NextTokenIsNewIff` | services/dtbabilitymgr/src/distributed_ability_manager_service.cpp:376-386 | the next token is not live if and only if no live token is a whole number of rounds old |
| `TokenRegistry.AbilityManagerService.RegisterWithoutExtraParam` | services/dtbabilitymgr/src/distributed_ability_manager_service.cpp:366-394 | a permitted caller below 600 gets the next token at the end of its list, nothing else changes, and the registry stays consistent exactly if no live token is whole rounds old; the error codes otherwise |
| `TokenRegistry.AbilityManagerService.Unregister` | services/dtbabilitymgr/src/distributed_ability_manager_service.cpp:178-214 | a registered token of the caller is removed everywhere with its notifiers, all other tokens keep caller and order and all other notifiers stay; the error codes otherwise |
| `TokenRegistry.AbilityManagerService.EraseToken` | services/dtbabilitymgr/src/distributed_ability_manager_service.cpp:195-206 | the early-breaking loop removes exactly the one token |
| `TokenRegistry.AbilityManagerService.RegisterDeviceSelectionCallback` | services/dtbabilitymgr/src/distributed_ability_manager_service.cpp:216-252 | attaches a notifier once per type to a token of the caller; every other type and token keeps its notifier; the error codes in order |
| `TokenRegistry.AbilityManagerService.UnregisterDeviceSelectionCallback` | services/dtbabilitymgr/src/distributed_ability_manager_service.cpp:254-285 | detaches exactly it, dropping the token's entry exactly with its last notifier; the error codes in order |
| `TokenRegistry.AbilityManagerService.IsTokenRegistered` | services/dtbabilitymgr/src/distributed_ability_manager_service.cpp:620-635 | true exactly if the caller's list holds the token |
| `TokenRegistry.AbilityManagerService.IsExceededRegisterMaxNum` | services/dtbabilitymgr/src/distributed_ability_manager_service.cpp:589-598 | true exactly from 600 tokens on |
| `TokenRegistry.AbilityManagerService.QueryTokenByNotifier` | services/dtbabilitymgr/src/distributed_ability_manager_service.cpp:800-813 | some token the notifier is attached to, and none exactly if there is none |
| `TokenRegistry.AbilityManagerService.HandleNotifierDied` | services/dtbabilitymgr/src/distributed_ability_manager_service.cpp:824-864 | the death of an attached notifier removes one live token that it is attached to, everywhere, and no other |
| `TokenSections.LimitHolds` | services/dtbabilitymgr/src/distributed_ability_manager_service.cpp:366-394 | with at most K registrations of a caller between check and commit, its tokens and pending registrations never exceed 599 + K, over every run of lock sections |
| `TokenSections.LimitAttained` | services/dtbabilitymgr/src/distributed_ability_manager_service.cpp:366-394 | the bound is exact: for every K there is a run that stores 599 + K tokens |
| `TokenSections.RunKeepsBase` | services/dtbabilitymgr/src/distributed_ability_manager_service.cpp:195-206 | in every state of every run that issues unused tokens, whatever overlaps, tokens are unique and no list is empty, so the early-breaking loop removes exactly its token |
| `TokenSections.EventHarmlessIff` | services/dtbabilitymgr/src/distributed_ability_manager_service.cpp:216-252 | in an undisturbed state a lock section can leave a notifier on a dead token if and only if it begins a removal of the token while a notifier is between check and attachment, or checks a token that is being removed |
| `TokenSections.StepGoodIff` | services/dtbabilitymgr/src/distributed_ability_manager_service.cpp:178-252 | a lock section keeps the state undisturbed if and only if it is none of those |
| `TokenSections.NotifiersOnLiveTokens` | services/dtbabilitymgr/src/distributed_ability_manager_service.cpp:178-252 | over every run without such overlaps notifiers are attached to live tokens only, tokens are unique and no list is empty |
| `TokenSections.SerialCallIsRun` | services/dtbabilitymgr/src/distributed_ability_manager_service.cpp:178-285 | the serial calls of the registry are their lock sections in a row |
| `TokenSections.CrossingStrands` | services/dtbabilitymgr/src/distributed_ability_manager_service.cpp:236-250 | wherever an attachment and a removal of a token are both under way, some order leaves the notifier on the dead token |
| `TokenSections.NotifierLeft` | services/dtbabilitymgr/src/distributed_ability_manager_service.cpp:236-250 | a concrete run that ends so |
| `IdAllocators.AfterClosed` | services/dtbschedmgr/src/distributed_sched_continuation.cpp:95-103 | where an allocator stands after any number of calls, in closed form |
| `IdAllocators.SameIdIffWholeRounds` | services/dtbschedmgr/src/dms_callback_task.cpp:37-45 | two ids of one allocator are equal if and only if whole rounds lie between them |
| `IdAllocators.DistinctWithinRound` | services/dtbschedmgr/src/distributed_sched_service.cpp:2698-2708 | within one round all ids differ |
| `IdAllocators.SessionIds.GenerateSessionId` | services/dtbschedmgr/src/distributed_sched_continuation.cpp:95-103 | returns the current id and moves to its successor in 1..INT32_MAX |
| `IdAllocators.SessionIds.GenerateMany` | services/dtbschedmgr/src/distributed_sched_continuation.cpp:95-103 | any run of calls no longer than the range yields positive, distinct ids |
| `IdAllocators.TaskIds.GenerateTaskId` | services/dtbschedmgr/src/dms_callback_task.cpp:37-45 | returns the current id and moves to its successor in 1..INT64_MAX |
| `IdAllocators.TaskIds.GenerateMany` | services/dtbschedmgr/src/dms_callback_task.cpp:37-45 | any run of calls no longer than the range yields positive, distinct ids |
| `CallTokens.TokensUnique` | services/dtbschedmgr/src/distributed_sched_service.cpp:4386-4392 | within one round of tokens a token names at most one live connect |
| `CallTokens.TokenClash` | services/dtbschedmgr/src/distributed_sched_service.cpp:2698-2715 | two live connects share a token if and only if whole rounds of tokens lie between their calls |
| `CallTokens.CallTable.SaveConnectToken` | services/dtbschedmgr/src/distributed_sched_service.cpp:2698-2715 | issues the successor in 1..100000000 and remembers the call under it |
| `CallTokens.CallTable.FindConnect` | services/dtbschedmgr/src/distributed_sched_service.cpp:4380-4396 | finds an entry with the token exactly if there is one, and within the window the only one |
| `AppStateFilter.AppStateObserver.OnAbilityStateChanged` | services/dtbschedmgr/src/app_state_observer.cpp:34-61 | passes on every BACKGROUND, and a FOREGROUND exactly if the set of places at which its token went to the foreground since its last BACKGROUND, this one included, has an even size; counters rest in {0, 1} |
| `AppStateFilter.AppStateObserver.OnTrace` | services/dtbschedmgr/src/app_state_observer.cpp:34-61 | the same for every event of any trace |
| `AppStateFilter.PassedOnIffDue` | services/dtbschedmgr/src/app_state_observer.cpp:41-56 | the stepwise count agrees with that set of places, for every trace and place |
| `AppStateFilter.TokensAreIndependent` | services/dtbschedmgr/src/app_state_observer.cpp:41-52 | what is passed on for a token depends on that token's events alone |
| `ObserverSections.EventHarmlessIff` | services/dtbschedmgr/src/distributed_sched_service.cpp:4255-4314 | in an undisturbed state a lock section endangers an entry if and only if a registration finds a slot that an unregistration is about to drop, or an unregistration takes the last entry while a registration has the slot and has not stored its entry |
| `ObserverSections.StepGoodIff` | services/dtbschedmgr/src/distributed_sched_service.cpp:4255-4314 | a lock section keeps the state undisturbed if and only if it is neither |
| `ObserverSections.EntriesShareObserver` | services/dtbschedmgr/src/distributed_sched_service.cpp:4255-4314 | in every state of every run without such overlaps the entries of a bundle carry the observer of its slot, observed exactly if the application manager accepted it |
| `ObserverSections.CrossingStrands` | services/dtbschedmgr/src/distributed_sched_service.cpp:4255-4314 | wherever a registration and an unregistration of a bundle are both between their sections, some order leaves an entry without slot and a deregistered observer |
| `ObserverSections.LostObserver` | services/dtbschedmgr/src/distributed_sched_service.cpp:4255-4314 | a concrete run with an entry whose accepted observer is deregistered and a second observer for the bundle |
| `ObserverSections.SerialCallIsRun` | services/dtbschedmgr/src/distributed_sched_service.cpp:4239-4325 | the serial calls are their lock sections in a row |
| `ObserverSharing.EntriesShareObserver` | services/dtbschedmgr/src/distributed_sched_service.cpp:4255-4278 | in every state reached by serial calls the entries of a bundle carry one observer, observed exactly if the application manager accepted it when its slot was made |
| `ObserverSharing.SlotDroppedWithLastEntry` | services/dtbschedmgr/src/distributed_sched_service.cpp:4292-4314 | in a serial call a slot goes exactly when an unregister removes the last entry of its bundle |
| `ObserverSharing.StepKeepsInv` | services/dtbschedmgr/src/distributed_sched_service.cpp:4255-4314 | every call keeps slots and entries consistent |
| `ObserverSharing.RunKeepsInv` | services/dtbschedmgr/src/distributed_sched_service.cpp:4255-4314 | so does every serial run |
| `ObserverSharing.RefusedRegistrationLeavesDeadSlot` | services/dtbschedmgr/src/distributed_sched_service.cpp:4260-4265 | a refused registration leaves a slot that a later caller joins unobserved |
| `ObserverSharing.ObserverTable.RegisterAppStateObserver` | services/dtbschedmgr/src/distributed_sched_service.cpp:4239-4280 | joins or makes the slot of the bundle and stores the entry with the slot's observer and the token, changing nothing else; refused in exactly the listed cases |
| `ObserverSharing.ObserverTable.UnregisterAppStateObserver` | services/dtbschedmgr/src/distributed_sched_service.cpp:4282-4325 | removes exactly the entry, and the slot and the registration exactly with the last entry of its bundle |

## Left out

- Proxies, stubs, parcels, JSON and Want handling: marshalling through libraries that are not part of this model.
- Permission decisions other than the path decoder: boolean combinations over external answers.
- The callback wrapper objects of accepted connections: the model keeps which connects are bound, not the wrapper passed to the ability manager, so two simultaneous first connects of one object that create two wrappers are not distinguished.
- Two offline cleanups queued for one peer at the same time: they are merged into one.
- `ConnectRemoteAbilityAdapter` and the other interactive-adapter paths: code behind function pointers.
- Free-install continuations beyond the shared table: `continuationMissionMap_` can outlive its entry, and nothing is claimed about it.
- `cleanMission_` entries without a pending mission: the flag is only shown to be set once and removed with its mission.
- Ability tokens of continuation sessions (`PushAbilityToken`, `PopAbilityToken`) and the list of event listeners.
- The caller and callee tables of remote calls, apart from the tokens of `callMap_`.
- Death recipients, reports, radar, dumps, automatic unloading and logging: side effects only.
- Counter width: the per-uid counters and the list sizes are unbounded integers here; the source uses 32-bit counters.
- Base64.Base64Encode: the null-pointer argument of the source is not modelled; byte strings are sequences.
- Base64.Base64Decode: texts longer than INT_MAX are excluded, because the source casts the length to int.
- TokenSections.EventHarmlessIff: tokens are issued only while they are not in use; what happens otherwise is stated for serial calls (`RegisterKeepsInvIff`).
