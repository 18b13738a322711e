# Promtuz: a verified model of its hard core

This project models, in Dafny, the parts of Promtuz whose correctness is hardest to see by reading one
function: the call state machine and its effect queue, the gateway's sticker store, profile
reconciliation, the jitter buffer, commits made before group rules existed, the relay's bridge registry,
calendar arithmetic, the icon converter's path rewriting and the hand-written DER of node certificates.

Objects that the source updates in place are classes (`CallDevice.Device`, `CallQueue.Calls`,
`StickerService.Service`, `ProfileSync.Store`, `Jitter.Jitter`, `GroupCommits.GroupDevice`,
`Bridges.Routes`). Each of their methods is proved against a function on values, and the theorems are
about that function over all inputs, runs or reachable states. The methods of `CallDevice.Device` and
`StickerService.Service` that have no loop are only that bridge and have no row below. A run is a list of
moves, each enabled where it is made; a theorem about runs quantifies over every such list.

| module | what it models |
|---|---|
| `CallMachine`, `CallDevice` | one device's call: every transition on values, and the in-place code that makes it |
| `CallQueue` | `apply` under any number of interleaving callers |
| `CallLifetimes` | what the platform and the history see of every call |
| `CallEndings` | how calls end, what is said of it to whom, and how long they lasted |
| `CallPair` | two devices on one call: how it goes through, and what each side shows of the other |
| `CallSetup` | what a session is handed while its call is set up |
| `CallTimers` | timed states and pending timers |
| `CallCrossing` | two devices that call each other |
| `CallRestart` | ICE restarts of a connected pair |
| `StickerStore`, `StickerService` | ledger, object store and requests; the code that changes them |
| `StickerRuns`, `StickerQuota` | retention, provenance, immutability and quotas over all interleavings |
| `StickerAnswers` | when a request is acknowledged, and what sweeps and publications remove |
| `ProfileSync` | the profile control exchange of two peers |
| `Jitter` | push and pop of the playout buffer |
| `GroupCommits` | publishing and settling commits across interruptions |
| `Bridges` | the generation-leased registry and a bridge's byte budget |
| `Civil` | seconds to calendar dates |
| `SvgPath` | splitting and rewriting path data through an affine map |
| `Der`, `Certificate` | DER elements and integers; writing, walking and reading certificates |

## What turned out differently from what the source says

- Finished calls are not remembered, and the expiry branch of `on_offer` comes before the check for the
  current call. An expired copy of the live call's offer announces that call as ended while it lives on, an
  expired copy of a finished call's offer records and announces its end once more, and an offer or start with
  a finished call's id opens it again. `CallLifetimes.CopiesBreakLifetimes` reaches all three from idle.
  `CallLifetimes.Lifetimes` shows that a run keeps the books of every call if and only if none of the three
  occurs; offers that are delivered once never cause them (`CallLifetimes.DeliveredOnceIsClean`).
- A mute message is described as telling that the sender muted or unmuted. It is sent only while the call is up,
  and nothing repeats it when the call comes up: a microphone muted before that is never told
  (`CallPair.MutedBeforeUpIsUntold`). `CallPair.ShownIffTold` says over every run exactly when the other side shows
  the microphone as it is.
- A timer matches a call by its id and phase. One left from an earlier reconnect ends a later one early
  (`CallTimers.SecondReconnectCutShort`). `CallTimers.TimerEndsCall` says when a phase gets its whole timeout: exactly
  if the timer that ends it was armed when it was entered.
- A manifest equal to the stored one is acknowledged without looking at its keys
  (`StickerRuns.RetryAcknowledgesMissingBlob`). `StickerRuns.AcknowledgedIffRetained` says for every
  acknowledged manifest exactly which of its blobs are kept.
- The comment above `publish_commit` says that whatever fails the next change settles. That holds for the
  group (`GroupCommits.SettlesToReplay`). It fails for the conversation's roster exactly when a change stops
  between a merge and the roster update (`GroupCommits.LevelUnlessCut`). In a run every commit is addressed to
  exactly the other members of its epoch if and only if none is queued after such a stop
  (`GroupCommits.CommitsAddressedExactlyIff`), and a commit misses a member if and only if one is queued while a
  member whose addition was cut off this way is still owed a place on the roster
  (`GroupCommits.CommitsReachTheirEpochIff`, `GroupCommits.AddedMemberMissesNextCommit`).
- After such a stop the same addition can be made again. Every key package brings its own leaf signature key
  (`libcore/src/mls/keypackage.rs:104-115`), so nothing in the repository refuses a second leaf of one identity, and
  `evict` takes out one leaf: the member stays (`GroupCommits.EvictedMemberStays`, exactly when by
  `GroupCommits.RemovalRemovesIff`).
- The jitter buffer's `next` is described as unset until playback starts. A push sets it earlier exactly when it
  overflows a full queue (`Jitter.PushStartsIff`), as thirteen packets without a pop do
  (`Jitter.BacklogStartsPlayback`).
- `tlv` and `encode_seq` truncate the length of a body of 65536 bytes or more, so such a body does not read
  back (`Der.RoundTrip` is an equivalence). `der_integer` casts its length to one byte (`Der.IntegerHolds`).
- Path data that does not begin with a moveto is rewritten wrongly by every map that moves the origin
  (`SvgPath.TransformKeepsPicture` is an equivalence).

## What is assumed of the surroundings

- Backend calls of the sticker store succeed or fail without effect, ledger writes succeed, and a crash or the
  loss of the ledger falls between requests and drops those in progress.
- An effect of a call takes place at the instant of its transition, and a timer that is due fires before time
  goes on. A session answers each restart command with one gathering of new candidates, under the ICE
  credentials it was built with, as `libcore/src/call/rtc.rs:526-557` does.
- `apply_tx` of profiles and avatars keeps the higher revision. A state-keeping peer does not roll back.
- The copies of a commit and its mark are written in one transaction.
- Identifiers, keys and hashes are numbers or sets of numbers, signatures are booleans, floating point is real.

## Model

| member | source | states |
|---|---|---|
| `CallQueue.Calls.Apply` | libcore/src/call/mod.rs:202-227 | a refused input changes nothing; a caller that finds the queue claimed only appends; otherwise every queued effect and its own have run, in order, and the queue is released |
| `CallQueue.StepKeeps` | libcore/src/call/mod.rs:202-227 | each atomic step of any caller keeps: one lock holder, at most one drainer, a claimed flag exactly when somebody drains, and nothing lost, repeated or reordered between a transition and its effects |
| `CallQueue.EffectsInOrder` | libcore/src/call/mod.rs:202-227 | in every interleaving of any number of callers, the state and the effects run so far are those of one device that takes the inputs one by one in state-lock order, the effects a prefix of its trace; at most one caller drains, the running effect is the next one of that trace, and a non-empty queue has a drainer |
| `CallQueue.MadeByTransitions` | libcore/src/call/mod.rs:202-227 | from any state, what a run makes and where it leads is what the transitions of its inputs make, in the order their callers held the state lock |
| `CallQueue.EveryEffectRuns` | libcore/src/call/mod.rs:202-227 | once all callers have left, exactly the effects of that one device have run, each once, in order, and queue, flag and lock are free |
| `CallQueue.CallersLeave` | libcore/src/call/mod.rs:202-227 | while callers are inside, one of them can step, and every step but a new entry lowers a measure: without new calls all leave |
| `CallQueue.ReentrantCallNeverDrains` | libcore/src/call/mod.rs:202-227 | a call made while an effect runs, such as from that effect, queues its own effects behind and leaves without running any |
| `CallDevice.Device.TakeRemote` | libcore/src/call/mod.rs:691-709 | the drain loop sends the remote's parameters and then every early candidate in order, or keeps them all for a session to come |
| `CallLifetimes.StepBrackets` | libcore/src/call/mod.rs:266-370 | for every state, set of finished calls and input: the announced events and rows stay in step with the state if and only if the input is no expired offer of the live or a finished call and reopens no finished call |
| `CallLifetimes.OfferInStep` | libcore/src/call/mod.rs:583-682 | the same equivalence for offers alone |
| `CallLifetimes.CopiesBreakLifetimes` | libcore/src/call/mod.rs:590-611 | instances of all three exceptions, reached from idle: a ringing call announced as ended, a finished call ended again, a finished call ringing again |
| `CallLifetimes.WellBracketed` | libcore/src/call/mod.rs:266-370 | for every run: its trace is accepted by an automaton that knows only events and rows, and ends where the machine is, if and only if no input of the run is one of the three exceptions |
| `CallLifetimes.LostForGood` | libcore/src/call/mod.rs:590-611 | once the platform was told that a live call is over, no continuation brings the trace back in step |
| `CallLifetimes.StepCounts` | libcore/src/call/mod.rs:266-370 | every transition, exception or not, opens exactly the call it brings to life, closes exactly the one it ends and the one whose offer arrives expired, and writes as many rows as ends |
| `CallLifetimes.Lifetimes` | libcore/src/call/mod.rs:266-370 | from idle, for every run: every call opens at most once and, once open, closes with exactly one end or switch unless it is the one still on, if and only if none of the three exceptions occurs; and every call always has as many rows as ends |
| `CallLifetimes.DeliveredOnceIsClean` | libcore/src/call/mod.rs:583-682 | if offers are delivered at most once and ids drawn fresh, no exception occurs |
| `CallLifetimes.ClosedStaysSilent` | libcore/src/call/mod.rs:822-854 | in every accepted trace nothing is announced or recorded of a call after it was closed |
| `CallLifetimes.EndsFollowTheirRow` | libcore/src/call/mod.rs:822-854 | in every accepted trace each end is directly preceded by its own row, and a row says answered only after that call was announced as connected |
| `CallEndings.EveryTransitionParts` | libcore/src/call/mod.rs:294-368 | a call ends exactly with a reject while it rings, a hang-up, the peer's end, a timer of its phase, its session's failure or its offer's loss; then its session stops, one row and one notice give the reason and the time talked, and the peer is told once, in the call's conversation, with the reason that follows from input and phase, except after its own end, a lost offer and a missed ring; any other transition keeps the call and says only of an expired offer that it was missed and to one that finds the device busy that it is |
| `CallEndings.BothEndsPart` | libcore/src/call/mod.rs:294-368 | for any two devices on one call: whatever ends it on the first and has to be told sends one notice, and once that is delivered both are idle, the second answers nothing, and the reasons follow from the two phases: a decline is Declined on both, a caller's hang-up is Missed where it rings, Cancelled where it is not connected yet and Hangup where it is |
| `CallEndings.TalkTimeFromFirstUp` | libcore/src/call/mod.rs:822-854 | over every run of a call to its end, reconnects included: the end gives the time since the platform first heard that the call is connected, and the row says answered, with whole seconds, exactly if that happened and the call was hung up or failed |
| `CallPair.CallerGoesThrough` | libcore/src/call/mod.rs:266-293 | for every call that is offered, rings and is answered: the caller sends one offer that lives 40 seconds, with what its session gathered, ends up connected with the answer's parameters, and its platform hears outgoing, ringing, connecting, connected |
| `CallPair.CalleeGoesThrough` | libcore/src/call/mod.rs:583-682 | an offer read within 45 seconds rings with its caller, conversation and video flag, and once accepted and gathered is answered, with exactly the messages the caller was given, and connected; one read later is a missed call and nothing else |
| `CallPair.ShownIffTold` | libcore/src/call/mod.rs:314-321 | one side runs through any inputs of the call and its mute messages are delivered: the other shows the microphone as it is if and only if a change was made while the call was up or the microphone is on |
| `CallPair.MutedBeforeUpIsUntold` | libcore/src/call/mod.rs:314-321 | for every connecting call: muted and then connected, the peer is told nothing |
| `CallPair.CameraShown` | libcore/src/call/mod.rs:322-329 | on a video call that is up the camera is told once and shown by the other side as told; otherwise nothing is said |
| `CallPair.PictureReachesItsCall` | libcore/src/call/mod.rs:810-812 | frames, keyframe requests and bitrates of the live call's session reach the platform unchanged, those of any other call do not |
| `CallSetup.MadeSo` | libcore/src/call/mod.rs:270-283 | every new call, placed, ringing or taken over in a crossing, comes from a start or an offer and has its fields, keeps a muted microphone muted, is announced, has its session started with the right role, and stops the session of the call it replaces |
| `CallSetup.CandidatesConserved` | libcore/src/call/mod.rs:521-532 | over every run of a call being set up, candidates kept and arrived are exactly those handed to the session and those still kept |
| `CallSetup.SessionGetsEverything` | libcore/src/call/mod.rs:691-749 | in every order of session start, answer and candidates: a session started once is told the peer's parameters exactly once, the answer's for the caller and the offer's for the callee, as soon as both are there, and by then has every candidate that arrived; until then all are kept |
| `CallSetup.HandedInOrder` | libcore/src/call/mod.rs:734-746 | a session that starts when the parameters are known is handed these first and then every candidate that arrived before it, in the order of arrival |
| `CallTimers.StepArms` | libcore/src/call/mod.rs:266-370 | a transition into a phase other than Connected arms a timer for that call and phase within the phase's limit, or stays in the phase |
| `CallTimers.NoPhaseOutlivesItsTimeout` | libcore/src/call/mod.rs:339-361 | in every reachable timed state a call outside Connected has been in its phase no longer than 45 or 20 seconds, and at the limit time cannot pass before a pending timer that ends the call fires |
| `CallTimers.ArmsExactly` | libcore/src/call/mod.rs:266-370 | every timer of every transition has its phase's delay and verdict, 45 or 20 seconds, and a ringing one lasts until the offer expires, 45 seconds at most |
| `CallTimers.TimerEndsCall` | libcore/src/call/mod.rs:339-361 | in every reachable state, a timer that ends a call outside ringing fires exactly its phase's timeout after it was armed; the phase has had its whole timeout if and only if the timer was armed on entering it |
| `CallTimers.SecondReconnectCutShort` | libcore/src/call/mod.rs:712-719 | an instance, reached from idle: a second reconnect is ended after one second by the timer of the first |
| `CallCrossing.NeverSplit` | libcore/src/call/mod.rs:583-652 | two devices that call each other, messages in any order, are never both past Offering and Ringing on different calls |
| `CallCrossing.CrossedOffersAgree` | libcore/src/call/mod.rs:583-652 | both called, the lower key's offer not lost on the other device, everything delivered and gathered: both are past ringing on the lower key's call, that device as caller and the other as callee |
| `CallCrossing.StepKeeps` | libcore/src/call/mod.rs:508-520 | every move of either device keeps what each message in flight implies about both devices |
| `CallCrossing.StepDue` | libcore/src/call/mod.rs:752-789 | every move keeps the owed offer or answer of an unsettled pair on its way: in flight, being gathered or asked for |
| `CallRestart.Received` | libcore/src/call/mod.rs:546-564 | a connected device joins a restart exactly when its generation is newer, and commands one restart exactly then |
| `CallRestart.RestartsIff` | libcore/src/call/mod.rs:712-732 | of the inputs that are not the peer's, exactly a network change, a lost path and expiring relay credentials begin a round: one generation, one command, stale candidates forgotten and, on leaving Connected, the platform told and a timer set |
| `CallRestart.StepKeeps` | libcore/src/call/mod.rs:712-732 | generations never fall; an outside event adds at most 5 to the measure of what is left to settle, and every gathering and delivery lowers it |
| `CallRestart.RestartsConverge` | libcore/src/call/mod.rs:546-564 | however restarts of both sides interleave, gatherings and deliveries are at most 5 per outside event, an unsettled pair can always go on, and a settled pair has equal generations |
| `CallRestart.Gathered` | libcore/src/call/mod.rs:779-785 | a gathering on a connected call sends one restart message with the current generation and the gathered parameters, and changes nothing else |
| `CallRestart.MovePeer` | libcore/src/call/mod.rs:546-564 | of all an end holds of its peer, an arriving restart of the call replaces the ICE credentials, whatever its generation, and keeps certificate and streams; no other move touches any of it |
| `CallRestart.PeerNeverChanges` | libcore/src/call/mod.rs:546-564 | since a session keeps its ICE credentials, in every run and every order of delivery an end that knows its peer goes on holding the same credentials, certificate and streams, late and overtaken restarts included |
| `CallRestart.RestartHands` | libcore/src/call/mod.rs:712-732 | joining a newer round a session is told to restart first and handed the new parameters behind that; otherwise it is handed them at once, before the early candidates |
| `CallRestart.EveryCandidateListHanded` | libcore/src/call/mod.rs:691-732 | between two settled moments, whatever the order of delivery, each end's session is handed every candidate list the other gathered, exactly once |
| `StickerService.Service.NameKeys` | gateway/src/store/ledger.rs:130-137 | the loop over keys names exactly the rows of those keys, inserting the missing |
| `StickerService.Service.DeleteObjects` | gateway/src/store/mod.rs:178-191 | the loop deletes exactly the objects whose deletion does not fail, and says which |
| `StickerService.Service.RemoveBlobs` | gateway/src/store/mod.rs:178-191 | objects whose deletion succeeded are gone and forgotten; failed ones keep object and row |
| `StickerService.Service.SweepBefore` | gateway/src/store/mod.rs:198-214 | the sweep removes the expired unnamed blobs it could and drops only packs that end up empty and unpublished |
| `StickerService.Service.PutManifestLocked` | gateway/src/store/mod.rs:140-171 | a manifest request under the lock, with its loop over keys: the first fault in key order, state and reply on every path |
| `StickerRuns.StepKeeps` | gateway/src/store/mod.rs:81-214 | every arrival, lookup, resumption, sweep, restart and ledger loss keeps the agreement of ledger, objects and manifests |
| `StickerRuns.AcknowledgedManifestIsRetained` | gateway/src/store/mod.rs:81-214 | after any run, a manifest acknowledged at a version other than the known one has every blob it names in the backend after any further run, through uploads, publishes, failed deletes, sweeps and ledger losses, with the bytes of an upload of that blob that had been acknowledged |
| `StickerRuns.StoredWasAccepted` | gateway/src/store/mod.rs:124-174 | over every run from the empty store, each stored object has the bytes of an acknowledged upload for its sticker pack and key, and each stored manifest was acknowledged for its sticker pack |
| `StickerRuns.UploadStores` | gateway/src/store/mod.rs:125-139 | an acknowledged upload leaves exactly its own bytes under its key, unless the ledger has the blob or it is an object of a published sticker pack, which stays as it was; nothing else in the backend changes |
| `StickerRuns.ManifestStores` | gateway/src/store/mod.rs:140-167 | after an acknowledged manifest, new or retried, that very manifest is the stored one and no other changed |
| `StickerRuns.RetainedIffSafe` | gateway/src/store/mod.rs:178-214 | in every reachable state a blob of a published pack survives all further runs if and only if it is stored and named or without a row |
| `StickerRuns.AcknowledgedIffRetained` | gateway/src/store/mod.rs:81-174 | for every acknowledged manifest, answered at once or after the unlocked lookup and so after ledger loss too: a blob it names survives all further runs if and only if the version was not the known one or the blob was safe before |
| `StickerRuns.RetryAcknowledgesMissingBlob` | gateway/src/store/mod.rs:147-154 | an instance, run from the empty store: an acknowledged retry names a blob that was never stored |
| `StickerRuns.ManifestsOnlyAdvance` | gateway/src/store/mod.rs:140-168 | over every run a published pack keeps its creator, and its manifest is the same or has a higher version, so no version has two contents |
| `StickerRuns.LookupStillHolds` | gateway/src/store/mod.rs:88-123 | what an unlocked lookup saw stays harmless through any other step |
| `StickerRuns.SafeForever` | gateway/src/store/ledger.rs:146-168 | a safe blob stays safe over every run, and its bytes never change |
| `StickerQuota.StepWithin` | gateway/src/store/mod.rs:112-139 | every step but ledger loss keeps all quotas and lets named sets only grow, and a request that is not acknowledged changes nothing |
| `StickerQuota.QuotasHold` | gateway/src/store/ledger.rs:104-144 | in every run without ledger loss a creator has at most 5 packs, a pack at most 100 named and 200 unnamed blobs, and the named set only grows |
| `StickerQuota.PublishNames` | gateway/src/store/ledger.rs:121-144 | after publishing a list that holds the named keys, exactly its keys are named, other packs' names are untouched and no unnamed set grows |
| `StickerAnswers.AdmittedIff` | gateway/src/store/mod.rs:57-68 | a request passes the gate if and only if it is for this store, signed, and a blob of at most 262208 bytes or a manifest in order |
| `StickerAnswers.AcknowledgedIff` | gateway/src/store/mod.rs:112-174 | past the gate a request is acknowledged if and only if the sticker pack is the creator's or one of fewer than five, and the blob is known, found or has room among 200, or the manifest is the stored one or newer with at most 100 keys, all present and none dropped, each needed backend call succeeding |
| `StickerAnswers.RefusedForTrueReason` | gateway/src/store/mod.rs:112-174 | every reason a refusal gives is true of store and request |
| `StickerAnswers.SweepsExactly` | gateway/src/store/mod.rs:198-214 | a sweep removes exactly the expired unnamed uploads whose deletion succeeds, row and object, and the expired unpublished sticker packs left without uploads; everything else stays as it was |
| `StickerAnswers.PublicationCleans` | gateway/src/store/mod.rs:167-171 | after a publication the sticker pack's uploads are its own keys and those whose deletion failed, and nothing of another sticker pack is touched |
| `ProfileSync.Store.Acknowledge` | libcore/src/profile_sync.rs:116-134 | the recorded acknowledgement becomes the higher of old and new within the current revision, or the call fails and changes nothing |
| `ProfileSync.Store.ReceiveTx` | libcore/src/profile_sync.rs:138-202 | receiving a control: tables, change flag and responses, or an error that changes nothing |
| `ProfileSync.RefusedIff` | libcore/src/profile_sync.rs:138-202 | a control is refused if and only if it is for another part, its content is bad, it syncs what the device does not have, or it carries a revision above 2^63-1 that would be stored |
| `ProfileSync.ChangedIff` | libcore/src/profile_sync.rs:138-202 | a control reports a change if and only if a stored copy changes, which is then the sender's, raised to the revision sent |
| `ProfileSync.SyncDecidesRetry` | libcore/src/profile_sync.rs:169-197 | after a sync the peer is retried, and sent the current revision, if and only if it said it does not have it, even if it had acknowledged it |
| `ProfileSync.StrangersAreNotRetried` | libcore/src/profile_sync.rs:233-243 | over any controls of others, a peer never heard from is never retried |
| `ProfileSync.NoPreAcknowledgement` | libcore/src/profile_sync.rs:116-134 | no control, however forged, records an acknowledgement above the owner's current revision or for anybody but its sender |
| `ProfileSync.StrangersHold` | libcore/src/profile_sync.rs:138-202 | two devices that have exchanged nothing start in an honest state |
| `ProfileSync.StepKeeps` | libcore/src/profile_sync.rs:138-202 | any delivery, duplicate, loss, edit or probe keeps every claim in flight or recorded true |
| `ProfileSync.ReceiptsAreTrue` | libcore/src/profile_sync.rs:116-202 | after any run a recorded acknowledgement is at most what the peer stores and at most the owner's revision |
| `ProfileSync.ExchangeEnds` | libcore/src/profile_sync.rs:138-202 | a run of deliveries is never longer than the weight in flight: replies do not loop |
| `ProfileSync.ProbeConverges` | libcore/src/profile_sync.rs:138-202 | after one probe from any honest state, delivered in any order until quiet, at most 6 deliveries beyond what was in flight leave each side storing the other's revision, confirmed, with nothing to retry |
| `Jitter.Jitter.PushPacket` | libcore/src/call/audio.rs:104-129 | the in-place push, with its backlog loop, equals the value-level one |
| `Jitter.Jitter.PopFrame` | libcore/src/call/audio.rs:132-175 | the in-place pop equals the value-level one in buffer and frame, and gives the frame that is due |
| `Jitter.HeardAsDue` | libcore/src/call/audio.rs:132-175 | after any pushes and pops, a pop gives the packet of the position if it is queued, the loss of the position with the following packet if that is, the oldest packet at the first fill, and silence if and only if nothing is queued and nothing owed or the first fill is below the delay |
| `Jitter.ReordersAndPlaysAll` | libcore/src/call/audio.rs:104-175 | two to twelve packets without a gap, arriving in any order and any number of times, are played one a pop, each once, in order, with their bytes |
| `Jitter.DelayAdapts` | libcore/src/call/audio.rs:104-159 | over every run the delay grows by one exactly on a late packet below ten frames after more than ten audible pops, and shrinks by one exactly when every audible pop of two seconds found the buffer too deep and it is above two |
| `Jitter.PushGoes` | libcore/src/call/audio.rs:104-129 | over every run a late packet is dropped, one more than 50 ahead empties the queue and moves the position there, and any other is queued with the position kept while at most twelve wait |
| `Jitter.TrimKeepsNewest` | libcore/src/call/audio.rs:122-129 | the backlog loop keeps at most 12 packets, all newer than every dropped one, and plays on from the first kept |
| `Jitter.PlayoutHolds` | libcore/src/call/audio.rs:104-175 | over any pushes and pops, the slots used up, played or lost, strictly rise, so no slot is lost and played later; queued numbers are at or after `next`, `next` is at most one past the highest seen, the queue is at most 12 and the depth between 2 and 10 |
| `Jitter.NewestIsNeverLate` | libcore/src/call/audio.rs:104-129 | a packet newer than all received is never treated as late |
| `Jitter.PushStartsIff` | libcore/src/call/audio.rs:122-129 | before playback has a position, a push gives it one if and only if the queue is full and the packet is a new one |
| `Jitter.BacklogStartsPlayback` | libcore/src/call/audio.rs:122-129 | thirteen packets pushed into a fresh buffer set the position although nothing was played |
| `Jitter.EveryPacketAccounted` | libcore/src/call/audio.rs:104-175 | conservation: for every packet, queued before plus accepted equals queued after plus played, overwritten, dropped by a resync and dropped by a backlog |
| `Jitter.BacklogTakesTheOldest` | libcore/src/call/audio.rs:122-129 | a backlog drop happens only to a full queue and takes only packets older than all kept |
| `GroupCommits.GroupDevice.LoadSettled` | libcore/src/groups.rs:1245-1261 | settling, interrupted after any durable write: merges a pending commit that left, discards one that did not |
| `GroupCommits.GroupDevice.PublishCommit` | libcore/src/groups.rs:1229-1241 | publishing, interrupted after any durable write |
| `GroupCommits.GroupDevice.Make` | libcore/src/groups.rs:1090-1174 | an add or a removal, interrupted after any durable write, is in exactly the state that many writes leave |
| `GroupCommits.ChangeKeeps` | libcore/src/groups.rs:1090-1174 | interrupted anywhere, a change keeps one commit per epoch and a group level with its outbox or one marked commit behind it, and only appends to the outbox |
| `GroupCommits.MadeIffAllowed` | libcore/src/groups.rs:1090-1174 | run to its end, a change queues one commit for the settled epoch and applies it if and only if it adds somebody off the roster to fewer than 256 leaves or removes another member; otherwise nothing is queued |
| `GroupCommits.NeverOverfull` | libcore/src/groups.rs:1090-1174 | over every run of interrupted changes a group of at most 256 leaves never gets more, pending merges included |
| `GroupCommits.SettlesToReplay` | libcore/src/groups.rs:1229-1261 | after any run of interrupted changes queued epochs strictly rise, and the settled group is the replay of every queued commit in order |
| `GroupCommits.LevelUnlessCut` | libcore/src/groups.rs:1090-1174 | from a device whose roster is level with its group, an attempt interrupted after any write leaves it level if and only if it does not stop exactly between a merge that alters the group and its roster update |
| `GroupCommits.CompletedLevels` | libcore/src/groups.rs:1090-1174 | on any device, a change run to its end leaves the roster level if and only if it was level or the change merged its own or an earlier commit |
| `GroupCommits.QueuedAddressing` | libcore/src/groups.rs:1115-1124 | a queued commit is addressed to exactly the other members of its epoch if and only if the settled roster is level apart from the device itself, and to all of them, perhaps among others, if and only if that roster holds them |
| `GroupCommits.CommitsAddressedExactlyIff` | libcore/src/groups.rs:1226-1261 | over every run of a founder's device, each queued commit is addressed to exactly the other members of the replay before it if and only if none was queued after a stop between a merge and its roster update |
| `GroupCommits.CommitsReachTheirEpochIff` | libcore/src/groups.rs:1226-1261 | over every run, each queued commit is addressed to all other members of the replay before it if and only if none was queued while a member was owed a place on the roster, where a stop after a merged addition owes one, a stop after a merged removal of the last leaf drops one and a roster update owes nobody |
| `GroupCommits.AddedMemberMissesNextCommit` | libcore/src/groups.rs:1226-1261 | for every group an interrupted add and then a removal leave a commit that a member of its epoch is not sent |
| `GroupCommits.RemovalRemovesIff` | libcore/src/groups.rs:1150-1167 | on any device, a merged removal leaves its target outside the group if and only if the target had exactly one leaf |
| `GroupCommits.EvictedMemberStays` | libcore/src/groups.rs:1090-1174 | for every group an interrupted add, the same add completed and a completed removal leave the member in the group and on the roster |
| `Bridges.Routes.Join` | relay/src/tcpassist.rs:105-151 | registering returns lease and displaced channel, or refuses and changes nothing |
| `Bridges.Routes.Leave` | relay/src/tcpassist.rs:169-179 | a current lease frees its slot, and an emptied bridge goes; any other lease changes nothing |
| `Bridges.OwnedAfterJoin` | relay/src/tcpassist.rs:105-151 | registering adds the bridge to the caller's holdings and changes nobody else's: being named as a peer costs nothing |
| `Bridges.RegistryHolds` | relay/src/tcpassist.rs:104-180 | over every run at most 512 bridges exist, none empty, an identity holds at most 8, and live generations are unique |
| `Bridges.JoinsIff` | relay/src/tcpassist.rs:105-151 | in every reachable registry a registration is accepted if and only if the two identities differ, the token is new with fewer than 512 or stands for the same two, the caller holds fewer than 8 or returns to its own place, and a generation is left |
| `Bridges.JoinDisplaces` | relay/src/tcpassist.rs:105-167 | a registration ends exactly the lease in its own slot, reports its channel, leaves every other lease current, and connects the two sides to each other |
| `Bridges.LeaveEnds` | relay/src/tcpassist.rs:169-179 | leaving ends exactly the lease that leaves: every other stays current and forwards as before, except the opposite one, which has nobody left, and the bridge goes if and only if nobody is opposite |
| `Bridges.DisplacedLeaseIsInert` | relay/src/tcpassist.rs:153-180 | a displaced lease never forwards and never removes anything again, whatever follows |
| `Bridges.Serve` | relay/src/tcpassist.rs:39-76 | with the registry changing between datagrams and before the drop: a datagram is admitted if and only if no window that ends with it is overrun, each admitted one goes to the other side as registered then, the loop stops at the first admitted one after displacement, a lease displaced at any moment up to its drop forwards nothing from then on and leaves the registry untouched, and over any window at most the burst plus the rate times its length is passed on |
| `Bridges.RefusedIffOverrun` | relay/src/tcpassist.rs:40-52 | for every arrival sequence a datagram is refused if and only if for some earlier datagram, or itself, the bytes let through since then and its own length exceed 256 KiB plus 8 MiB a second over the time between |
| `Bridges.TokensBounded` | relay/src/tcpassist.rs:40-62 | the token count stays between zero and the burst for every arrival sequence |
| `Civil.CivilIsCalendar` | gateway/src/store/s3.rs:175-189 | for every day count the arithmetic gives the date that walking day by day with the 4/100/400 rule gives |
| `Civil.CivilTimeHolds` | gateway/src/store/s3.rs:175-189 | every second count yields a valid date and time that counts back to exactly those seconds |
| `Civil.CivilInvertsCounting` | gateway/src/store/s3.rs:175-189 | counting days year by year and month by month from 1970 and converting back returns every date |
| `Civil.CivilTimeRises` | gateway/src/store/s3.rs:175-189 | a later count gives a strictly later time |
| `SvgPath.Tokenize` | tools/scripts/svg2vd.py:116-133 | the loops yield every full group of every letter, a repeated moveto as lineto, and drop what is left over |
| `SvgPath.TransformPath` | tools/scripts/svg2vd.py:136-199 | the loop over current point and subpath start writes what the recursive rewriting writes |
| `SvgPath.TokensDrawThePath` | tools/scripts/svg2vd.py:116-133 | expanding implicit repeats draws the same pieces as reading the letters and numbers by section 8.3 of SVG 1.1 |
| `SvgPath.TransformKeepsPicture` | tools/scripts/svg2vd.py:136-199 | drawing the rewritten path equals mapping the drawing of the original, for relative and absolute commands, H, V, Z and smooth reflections, if and only if the path is empty or begins with a moveto or the map keeps the origin |
| `SvgPath.RewriteIsAbsolute` | tools/scripts/svg2vd.py:136-199 | only absolute commands without H and V are written |
| `SvgPath.Composes` | tools/scripts/svg2vd.py:45-61 | the matrix product maps every point as the outer after the inner |
| `SvgPath.RewritesCompose` | tools/scripts/svg2vd.py:45-61 | rewriting through an inner and then an outer transform equals rewriting once through their product, for every path |
| `Der.RoundTrip` | common/src/node/enroll.rs:148-157 | an encoded element followed by anything reads back as its tag, body and suffix if and only if the body is under 65536 bytes |
| `Der.ReadsLocally` | common/src/node/enroll.rs:23-38 | what follows an element never changes how it reads |
| `Der.ReadsLongForm` | common/src/node/enroll.rs:23-38 | every element whose length stands in one to four octets is read, minimal or not |
| `Der.RefusesOtherForms` | common/src/node/enroll.rs:23-38 | the indefinite form and five or more length octets are refused |
| `Der.IntegerHolds` | common/src/quic/config.rs:190-197 | the integer body is minimal and not negative (section 8.3 of X.690) and keeps its value, and it reads back if and only if it is under 128 bytes |
| `Der.MinimalIsUnique` | common/src/quic/config.rs:190-197 | a number has one minimal body |
| `Der.IntegersAgree` | common/src/quic/config.rs:190-197 | two magnitudes are written alike if and only if they are the same number |
| `Certificate.TbsFromSpki` | common/src/node/enroll.rs:42-53 | the walk past version and five fields, as a loop, for every input |
| `Certificate.CertCapabilities` | common/src/node/enroll.rs:70-93 | both loops terminate on every input and return what the recursive scan returns |
| `Certificate.FindsSpki` | common/src/node/enroll.rs:42-53 | in every certificate laid out as in section 4.1 of RFC 5280, with or without version and with arbitrary field bodies, the walk stops exactly at the SPKI |
| `Certificate.KeyIsTheSpkiKey` | common/src/node/enroll.rs:55-64 | the key read is the SPKI's, whatever octets other fields hold; it is refused exactly for another algorithm, another type or a key that is not 32 bytes |
| `Certificate.CapabilitiesAreTheFirstStamp` | common/src/node/enroll.rs:70-93 | the capabilities are the little-endian word in the first extension with the identifier, critical or not, past any unique ids; lookalikes inside other extensions are never taken, and without one, or with anything but an OCTET STRING of four octets, there are none |
| `Certificate.StampedWordIsRead` | common/src/node/enroll.rs:70-93 | every 32-bit word, stamped as four octets lowest first into the first such extension of a laid-out certificate, reads back as that word, unknown bits included; a stamp of another length or type reads as none |
| `Certificate.KnownIdentifiers` | common/src/node/capability.rs:7 | the octets looked for are those of 1.3.6.1.4.1.58888.1, and of 1.3.101.112 for the key |
| `Certificate.SelfSignedHolds` | common/src/quic/config.rs:159-235 | for every 32-byte key and 64-byte signature the built certificate reads back as certifying that key and carries no capabilities |
| `Certificate.SelfSignedValidity` | common/src/quic/config.rs:200-210 | the built certificate is valid from 700101000000Z as UTCTime to 99991231235959Z as GeneralizedTime |

## Left out

- Arc commands, number formatting, colours, shapes and XML in the icon converter: floating point and string cosmetics; path data enters as letters with their numbers.
- Overflow of `restart_gen`, of `next + 50` and of `since_change`: all counters of the model are unbounded.
- Opus decoding and concealment: a frame is which packet is played, or which one is missing and whether the next could conceal it.
- Session internals, ICE and DTLS: sessions are event sources, and their commands a recorded channel.
- The 64 permits in front of the store and a manifest that does not decode: they only refuse requests earlier.
- Suppression of profile controls in request chats, routing and the probe cooldown: they only send less.
- Group rules, branch recovery and openmls internals: a commit is a membership change on an epoch, and a group is a list of leaves, whose places in the ratchet tree are not modelled.
- The framing of the relay's tunnels, TURN and UDP sockets: library-driven input and output.
- Certificate chains, signatures and validity checks by the TLS library: the model covers which bytes are read as key and capabilities.
- PEM, certificate signing requests, S3 request signing, push registration, downloads, FFI, CLI and configuration: thin wrappers that would only add easy members.
- CallCrossing.CrossedOffersAgree: assumes that the lower key's offer did not expire on its way and, where it rings, finds media, since such an offer is not answered by design.
- CallTimers.TimerEndsCall: leaves out ringing, whose time depends on the offer; CallTimers.ArmsExactly gives it.
- ProfileSync.SyncDecidesRetry: takes recorded receipts to be at most the own revision, which ProfileSync.ReceiptsAreTrue proves of every run.
- Certificate.CapabilitiesAreTheFirstStamp: takes an element with tag 0x01 after the identifier for the flag, as the reader does.
- StickerRuns.AcknowledgedManifestIsRetained: excludes the retry of the known version, which AcknowledgedIffRetained decides.
