# Kuali, modelled and proved in Dafny

Kuali records meetings and attributes every block of speech to a person. This project
models the parts of Kuali on which that attribution and the safety of the recorded data
rest, and proves properties of the model over all inputs, all runs and all interleavings
of its steps.

`dafny verify dfyconfig.toml` checks the whole project.

## What is modelled

**Meet routing and attribution** (`MeetState`, and the modules built on it). Each
contributing source has a route with an owner device, a channel and a generation that
counts owner changes. Protocol updates and active-speaker votes compete to set the owner;
audio that disagrees with the owner is held and replayed; two capture paths arbitrate for
one source. `MeetState` is the state machine: an `Env` (what surrounds capture), a
`Registry` (channels and activity claims), one `Lane` per source (everything keyed by that
source) and the creation order. Every handler is one step and reads the clock once.
History fields (owners, held chunks, observations, rebinds, replays, accepted blocks, claims)
are written and never read by a step. `MeetCapture.Capture` is the same machine with mutable
fields and loops; each handler is one step, and the object remembers its steps, so that
whatever holds over every run is ensured by every handler.

- `PcmFraming`: the framing loop of the worklet and the reference split of a stream.
- `CapturePolicy`: the identity vote and the resolution of protocol against activity.
- `PcmArbitration`: native against encoded capture, and the lease of a source.
- `MeetAttribution`, `MeetLifecycle`, `MeetStartGuard`: who each published block belongs to,
  and how starts and stops follow each other.
- `MeetChannels`, `MeetFraming`: channels and owners over all runs, and the framing of a lane.
- `MeetClaims`, `MeetClaimGap`, `MeetChallenger`: how far a confirmation protects a device, and
  when a challenger wins.
- `MeetOwnership`, `MeetEvidence`, `MeetHolding`, `MeetReplay`, `MeetPaths`, `MeetRuns`:
  ownership, the evidence of a rebind, the challenge buffer and its replays, and the
  arbitration log over whole runs.
- `MeetDelivery`, `MeetPublishing`, `MeetHeard`: where a decoded chunk goes, what publishing
  it adds, and that reliable speech is heard, over whole runs.
- `MeetFresh`, `MeetFreshRuns`: what an owner change does to the evidence for encoded audio.
- `MeetDecoder`: the encoded tap, with decoder epochs, the timestamp map and the frame queues;
  `MeetSubmission` says exactly what is submitted and accepted; `MeetTapRuns` runs the tap
  together with the routing machine.
- `RemoteAudioHealth`: when an encoded lane counts as stalled.

**Meet wire parsing.** `ProtoWire` and `MeetProtocol` read protobuf with a moving cursor,
`MeetProtocolRoundTrip` states what that reads back, `ProtoEndings` and `MeetProtocolErrors`
what becomes of malformed bytes, `RedPayload` walks RFC 2198 headers
(section 3 of RFC 2198), and `DeviceOutputIndex` keeps the two-way index of device outputs.

**Discord reception.** `DiscordReceiver` models the decode watchdog, the capped recovery
requests, whose audio a packet carries, and the stream of events; `DiscordAnswers` says when
silence is answered; `DiscordOverlap` lets the atomic operations of
overlapping requests interleave in any order.

**Data at rest and on screen.** `MetadataEdit` models metadata edits against reloads,
`FactoryReset` the crash-safe reset over a modelled disk, `Transcript` and `TranscriptText`
the ordered transcript and its text, `TranscriptReading` reads that text back, `Tags` and
`Text` model the names users give.

## What the proofs found

- The 750 ms protection of a confirmed device has exactly three ends: the confirming source
  loses the device (page-capture.js:295-297), a start or stop wipes all claims, or another
  source confirms the device too, which overwrites the claim, and then owns it or loses it
  itself (`MeetClaims.ConfirmationYieldsExactly`). `MeetClaimGap` gives a run of the third
  kind: a source is rebound to a device 250 ms after another source confirmed it and never
  lost it.
- Attribution rests on the queue of starts and stops (page-capture.js:2216-2232, 2318-2345).
  The queue rules out that the protocol moves a route between a superseded start and the
  next one. If any owner changed there while audio waits, a later owner could receive it
  (`MeetStartGuard.OwnerChangeMakesStartUnsafe`), and the condition is exact
  (`MeetStartGuard.StartIsSafeExactly`).
- An owner change drops the lease of a source (page-capture.js:268), so two receivers may
  publish for it less than 250 ms apart across such a change:
  `PcmArbitration.OwnerChangeLiftsSpacing`.
- An owner change also forgets which capture path a receiver uses (page-capture.js:261-269),
  but the step that changes the owner publishes what it replays, and the chunk that won,
  without asking again (page-capture.js:723-729). So an encoded block is justified by what was
  logged since the last reset exactly when the step that accepted it left the owner alone
  (`MeetFreshRuns.EncodedIsFreshExactly`); `MeetFresh.ReplayFollowsReset` gives the encoded
  block right behind the reset.
- Over every run, a route loses its owner exactly when the protocol maps its source to a
  blank device id while no activity backs the owner: `MeetOwnership.OwnerLostExactly`.
- A recovery recorded at a quiet instant within 750 ms of audible frames switches stall
  reports off until the next pause: `RemoteAudioHealth.QuietRecoveryBlinds`. The present
  callers only record recoveries at audible instants.
- Two Discord recovery requests whose calls overlap can both pass the 30 s cooldown, even in
  the same instant, because the cooldown is read before the flag is taken
  (receiver.rs:93-111): `DiscordOverlap.OverlappingRequestsMayCrowd` is such a run. Two commits
  are crowded only if the later call read the cooldown before the earlier one committed
  (`DiscordOverlap.CrowdedReadFirst`), and a commit keeps the 30 s exactly if the cooldown,
  read again at the commit, is over (`DiscordOverlap.CommitSpacedExactly`).
- Scheduling a second factory reset can lose the first request if it stops between the
  removal and the rename: `FactoryReset.InterruptedSchedulingLosesARequest`.
- An utterance that is sent again and shares its start with a later one changes places in
  the interface and not in the saved transcript: `Transcript.EqualStartsDisagree`.
- A turn of two or more blank utterances leaves a line of blanks in the transcript text,
  although a single blank one leaves none: `TranscriptText.DroppedExactly`.

## Model

| member | source | states |
|---|---|---|
| MeetLifecycle.EveryBlockIsAttributed | browser-extension/src/page-capture.js:1848-1882 | Over every run that the queue of starts and stops admits, every published block is 2048 samples accepted under one owner of its source, and is on that owner's channel; a block framed before any owner was known is on the channel of the first owner |
| MeetLifecycle.LifecycleGuards | browser-extension/src/page-capture.js:2216-2232 | A stop cleans up before any later start, and a superseded start hands over before the protocol can move a route; so every start finds only blocks of the present generation waiting |
| MeetAttribution.GuardedRunsAttribute | browser-extension/src/page-capture.js:1848-1882 | The same attribution over every run, of the queue or not, whose starts find only blocks of the present generation waiting |
| MeetChannels.ChannelsArePermanent | browser-extension/src/page-capture.js:293-320 | Over every run, whatever comes before and after, no device ever changes its channel, no two devices share one, and every owned route is on its owner's channel |
| MeetChannels.ChannelIsGivenExactly | browser-extension/src/page-capture.js:299-315 | After every run, whoever an update or a chunk makes the owner of a route keeps its channel, or takes the route's if that is nobody's, or gets a new one; no other channel changes |
| MeetChannels.RoutesAvoidReservedChannels | browser-extension/src/page-capture.js:360-370 | Over every run, while the channel counter has not passed 999, no route is on a channel from 999 on, in particular not on the microphone's or the mixed one |
| MeetAttribution.AnnounceExactly | browser-extension/src/page-capture.js:241-259 | Releasing the waiting blocks of an owned route is right if and only if the owner is the first one after each block was framed |
| MeetAttribution.ReleasedBlocks | browser-extension/src/page-capture.js:251-258 | What an announcement publishes: exactly the waiting blocks, on the route's channel, only while capturing and owned |
| MeetAttribution.AssignOk | browser-extension/src/page-capture.js:293-320 | An owner change keeps the registry injective, gives the route the new owner's channel, adds one generation and drops every live partial buffer of the source |
| MeetAttribution.CleanupGuardsTheNextStart | browser-extension/src/page-capture.js:2160-2205 | After the cleanup of a stop, whatever the protocol does before the next start, nothing waits and that start is guarded |
| MeetStartGuard.StartIsSafeExactly | browser-extension/src/page-capture.js:2102-2151 | A start leaves all later audio attributed if and only if no block waits from before an owner change: the condition that the queue establishes is exact |
| MeetStartGuard.OwnerChangeMakesStartUnsafe | browser-extension/src/page-capture.js:2216-2232 | With audio waiting and capture off, one owner change by the protocol makes the next start unsafe: some later run gives that audio to a later owner |
| MeetOwnership.OwnedStaysOwned | browser-extension/src/page-capture.js:322-358 | Over every run whose protocol names its devices, only the first generation of a route can be without an owner |
| MeetOwnership.OwnerLostExactly | browser-extension/src/page-capture.js:322-346 | Over every run, a step takes the owner of a source away if and only if it maps the source to a blank device id while no activity backs the owner |
| MeetOwnership.UpdateOwnerExactly | browser-extension/src/page-capture.js:322-346 | After an update the owner is the canonical device of a new mapping; without new evidence the activity owner, or the former one on a mapping that has gone stale, and otherwise nobody |
| MeetOwnership.CreatedOwnerExactly | browser-extension/src/page-capture.js:360-384 | A new route belongs to the canonical device the protocol maps it to, on that device's channel if it has one |
| MeetOwnership.UpdateKeepsOverride | browser-extension/src/capture-policy.js:425-450 | A protocol update that repeats the overridden raw owner or drops the mapping leaves the activity owner in place |
| MeetOwnership.OverrideOutlastsRepeats | browser-extension/src/page-capture.js:322-358 | The same through any run of such updates and any other steps, unless the source is rebound again |
| MeetOwnership.NewEvidenceEndsOverride | browser-extension/src/capture-policy.js:425-450 | The first non-empty raw owner different from the overridden one makes the protocol authoritative and clears the override |
| MeetEvidence.ClaimedElsewhereExactly | browser-extension/src/page-capture.js:435-441 | The map of claims blocks a device for a source if and only if the last confirmation still standing is another source's and at most 750 ms old |
| MeetClaims.UnclaimedExactly | browser-extension/src/page-capture.js:293-297 | No claim stands against a source if and only if the last confirmation of the device is its own, older than 750 ms, or taken back by the loss of the device or by a start or stop |
| MeetClaims.ConfirmationYieldsExactly | browser-extension/src/page-capture.js:435-478 | A source with six votes is rebound to a device that another source confirmed within 750 ms if and only if that confirmation was taken back, or overwritten by a later one that is its own or was taken back |
| MeetClaims.RebindsRespectConfirmations | browser-extension/src/page-capture.js:435-478 | Over every run, each rebind within 750 ms of another source's confirmation of the device finds it taken back or overwritten in that way |
| MeetClaimGap.OverwrittenClaimIsNoProtection | browser-extension/src/page-capture.js:435-441 | The run in which a source is rebound to a device 250 ms after another source confirmed it and never lost it |
| MeetChallenger.ChallengerWins | browser-extension/src/page-capture.js:443-478 | From any state, a challenger heard alone in loud chunks at most 400 ms apart wins its source at the very chunk that completes six votes over 250 ms, and at none before |
| MeetRuns.EveryRebindIsWarranted | browser-extension/src/page-capture.js:397-478 | Over every run a rebind to a device ends at least 6 loud observations of it as the only candidate, gaps at most 400 ms, span at least 250 ms, no other observation in between, and overrides no standing claim of another source of at most 750 ms |
| MeetRuns.ChallengeIsLongestSuffix | browser-extension/src/page-capture.js:277-284 | Over every run the challenge buffer is the longest suffix of what was held since the last clear with at most 16000 samples, or its last chunk alone, and its count is exact |
| MeetRuns.ChallengeIsTheChallengers | browser-extension/src/page-capture.js:443-466 | Over every run, what the challenge holds was held while the challenger was the only one shown as speaking and did not own the route |
| MeetRuns.ReplaysGoToTheChallenger | browser-extension/src/page-capture.js:286-291 | Over every run, held audio is replayed only once the route belongs to the challenger, who was the only candidate while it was held |
| MeetRuns.HeldIsReplayedExactly | browser-extension/src/page-capture.js:341-357 | After every run, a protocol update that changes the owner replays what is held if and only if the challenger becomes the owner, and discards it otherwise; one that does not change the owner leaves it |
| MeetHolding.LongestIsUnique | browser-extension/src/page-capture.js:277-284 | There is only one such suffix |
| MeetHolding.RebindReplaysInOrder | browser-extension/src/page-capture.js:286-291 | A rebind pushes the held chunks in the order they were held, and the triggering chunk last |
| MeetRuns.EveryLedgerKeepsTheRules | browser-extension/src/page-capture.js:98-213 | Over every run the log of accepted blocks keeps the stall and lease rules, and `switches` counts the owner changes |
| PcmArbitration.EncodedWaitsForStall | browser-extension/src/page-capture.js:143-194 | While a receiver stays a native candidate, an accepted encoded block comes at least 1500 ms after its last native one, with a covered audible stall of 1500 ms in between |
| PcmArbitration.ConsecutiveBlocksSpaced | browser-extension/src/page-capture.js:200-213 | Consecutive accepted blocks of a source, with no owner change between them, are of one receiver and path, over 250 ms apart, or native pre-empting encoded |
| PcmArbitration.OwnerChangeLiftsSpacing | browser-extension/src/page-capture.js:261-269 | Across an owner change another receiver may be accepted in the same instant |
| MeetFreshRuns.EncodedIsFreshExactly | browser-extension/src/page-capture.js:261-269 | Over every run, each encoded block was accepted by some step, and what was logged since the last reset before the block justifies it if and only if that step left the owner of the route alone |
| MeetFreshRuns.FreshExactly | browser-extension/src/page-capture.js:697-700 | The same of the next step after any run |
| MeetFresh.ReplayFollowsReset | browser-extension/src/page-capture.js:723-729 | In the step in which a challenger wins, a full loud encoded block first in line is accepted right behind the reset |
| PcmArbitration.ClaimableFollows | browser-extension/src/page-capture.js:200-213 | A block may claim its source if and only if it may follow the block that last did |
| PcmArbitration.DecideOk | browser-extension/src/page-capture.js:143-194 | A frame decision keeps every rule of the log, and the state of every receiver stays exactly what the log says of it: when it was last heard, since when without a gap, its last native block, and who owns the source |
| PcmArbitration.OwnsExactly | browser-extension/src/page-capture.js:129-194 | The encoded path owns the source for a receiver if and only if, since its state was last dropped and since its last native block, a frame of no native candidate came, or an audible one ending 1500 ms of audible frames with no gap over 750 ms |
| MeetRuns.EncodedOwnerExactly | browser-extension/src/page-capture.js:129-198 | The same over every run of the machine |
| MeetRuns.FrameHandsOverExactly | browser-extension/src/page-capture.js:152-194 | After every run, a frame of a live tap hands the source over if and only if it is of no native candidate, ends such a stall, or the source was handed over already |
| MeetRuns.FrameDropsExactly | browser-extension/src/page-capture.js:183-192 | After every run, the frame of a native candidate that hands the source over drops what the native path has not framed yet; any other frame leaves every partial block alone |
| PcmArbitration.AcceptOk | browser-extension/src/page-capture.js:130-141 | Accepting a claimable block keeps every rule of the log |
| MeetPaths.DeliverPaths | browser-extension/src/page-capture.js:1592-1617 | Publishing, holding and replaying a chunk keep the arbitration rules, also for audio held before the arbitration was reset |
| MeetFacts.CorrelateResult | browser-extension/src/page-capture.js:397-478 | Correlation changes an owner only by a rebind, only to the one candidate, and records it |
| MeetFacts.UpdateRouteResult | browser-extension/src/page-capture.js:322-358 | After an update the route is what the protocol read now resolves to, and owners grow by at most that one |
| MeetDelivery.ChunkGoesExactly | browser-extension/src/page-capture.js:397-478 | In any state, a chunk heard while somebody else alone challenges the owner (known, allowed, and not claimed by another source's standing confirmation within 750 ms) is held, or wins the route with all that was held if it completes the vote; any other chunk is pushed if the owner is alone, or the route is trusted and owned or nobody is alone, or an unowned route may not be challenged, and is dropped otherwise; the claims change only as stated |
| MeetDelivery.UpdateClaimsExactly | browser-extension/src/page-capture.js:341-357 | A protocol update takes back the claim of an owner it replaces and confirms the challenger it makes the owner |
| MeetHeard.NativeGoesExactly | browser-extension/src/page-capture.js:1640-1668 | After every run a native chunk goes exactly there, by its route brought up to date |
| MeetHeard.DecodedGoesExactly | browser-extension/src/page-capture.js:697-729 | After every run a decoded chunk of a live tap goes exactly there while the log hands the source to the encoded path, and otherwise changes nothing |
| MeetPublishing.PushPublishesExactly | browser-extension/src/page-capture.js:1592-1617 | A pushed chunk publishes exactly the audible full blocks of what was kept and what is new, in order, if its entry is live, the microphone open and the source free; they are posted on the route's channel behind what waited there, or the latest 80 wait if nobody owns it |
| MeetPublishing.PushKeepsResidue | browser-extension/src/page-capture.js:1592-1617 | What is left of a chunk stays in its buffer, unless a native block of it ended an encoded spell |
| MeetHeard.NativeSpeechIsPublished | browser-extension/src/page-capture.js:1654-1668 | After every run, native speech of an owned route that can be relied on is the last audio posted, all audible full blocks of it, on the channel of the owner, if no other receiver published for the source within 250 ms |
| MeetHeard.DecodedSpeechIsPublished | browser-extension/src/page-capture.js:697-729 | The same of decoded speech while the log hands the source to the encoded path |
| MeetHeard.OwnVoiceIsUnheard | browser-extension/src/page-capture.js:1618-1630 | After every run, what arrives marked as the user's own brings its route up to date, is not observed, framed or published, and leaves every other route alone |
| MeetHeard.OnlyAudioIsRouted | browser-extension/src/page-capture.js:360-363 | After every run, no route is of an empty or video source, and what arrives of one changes nothing |
| MeetCapture.Capture.AnnounceRoute | browser-extension/src/page-capture.js:241-259 | The release loop leaves exactly the announced lane |
| MeetCapture.Capture.HoldRoutePcm | browser-extension/src/page-capture.js:277-284 | The holding loop leaves exactly the trimmed challenge |
| MeetCapture.Capture.ResetSourcePcm | browser-extension/src/page-capture.js:261-269 | Of one source exactly the buffers of released entries stay, and any receiver may claim it at once on either path |
| MeetCapture.Capture.PreferNativePcm | browser-extension/src/page-capture.js:130-141 | Ends encoded ownership and drops exactly the buffers that an accepted native block deletes |
| MeetCapture.Capture.OnTrackPcm | browser-extension/src/page-capture.js:1848-1882 | One framed block is dropped, kept waiting or posted exactly as the specification says |
| MeetCapture.Capture.FillBuffer | browser-extension/src/page-capture.js:1592-1612 | The framing loop hands on exactly the blocks of the reference split of kept and new samples, and keeps its residue |
| MeetCapture.Capture.PushTrackProcessorPcm | browser-extension/src/page-capture.js:1592-1617 | The same for the entry's buffer, which is stored only if no block deleted it on the way |
| MeetFraming.PushingIgnoresCuts | browser-extension/src/page-capture.js:1592-1617 | However the samples between two deletions of an entry's buffer are cut into chunks, the lane is the one a single chunk of them leaves |
| MeetCapture.Capture.FlushRouteChallenge | browser-extension/src/page-capture.js:286-291 | The replay loop pushes the held chunks in order |
| MeetCapture.Capture.ChannelTaken | browser-extension/src/page-capture.js:304-306 | The search finds whether another device owns a channel |
| MeetCapture.Capture.GiveChannel | browser-extension/src/page-capture.js:302-315 | A device keeps its channel, takes the route's if nobody owns it, or gets a new one |
| MeetCapture.Capture.AssignRouteDevice | browser-extension/src/page-capture.js:293-320 | An owner change as specified, or nothing if the owner stays |
| MeetCapture.Capture.UpdateRouteIdentity | browser-extension/src/page-capture.js:322-358 | One protocol update of one route, including a challenge it confirms |
| MeetCapture.Capture.CreateRoute | browser-extension/src/page-capture.js:364-389 | A new route as specified, added last in creation order |
| MeetCapture.Capture.RouteForSource | browser-extension/src/page-capture.js:360-395 | No route for empty and video sources; otherwise one that is created or brought up to date |
| MeetCapture.Capture.ApplyMeetUsers | browser-extension/src/page-capture.js:480-503 | New users update every route in creation order |
| MeetCapture.Capture.ApplyMeetDeviceOutputs | browser-extension/src/page-capture.js:505-516 | New device outputs update every route in creation order |
| MeetCapture.Capture.ActiveCandidates | browser-extension/src/page-capture.js:399-405 | The loop collects exactly the active devices that are not Kuali's user |
| MeetCapture.Capture.CorrelateWithActiveSpeaker | browser-extension/src/page-capture.js:397-478 | Every branch of the correlation, its decision and its new state |
| MeetCapture.Capture.ReceiveNativePcm | browser-extension/src/page-capture.js:1631-1671 | A native chunk finds its route, is correlated and delivered as one step |
| MeetCapture.Capture.ReceiveDecodedPcm | browser-extension/src/page-capture.js:697-729 | A decoded chunk is delivered only while the encoded path owns the source |
| MeetCapture.Capture.ObserveEncodedFrame | browser-extension/src/page-capture.js:837-920 | An encoded frame finds its route and decides who owns the source |
| MeetCapture.RunKeepsPromises | browser-extension/src/page-capture.js:1848-1882 | Over every run of its steps the machine keeps channels for ever, rebinds only when warranted, holds the longest challenge, keeps the arbitration rules, and, under the capture queue, attributes every block |
| MeetCapture.Capture.constructor | browser-extension/src/page-capture.js:42-75 | A new object is the machine before its first step |
| MeetCapture.Capture.OnMeetUsers | browser-extension/src/page-capture.js:480-503 | New users: the object stays what its steps make of it with all promises of a run kept, and no device loses its channel |
| MeetCapture.Capture.OnMeetDeviceOutputs | browser-extension/src/page-capture.js:505-516 | The same for new device outputs |
| MeetCapture.Capture.TakeChannel | browser-extension/src/page-capture.js:1741 | A track outside Meet takes a channel that no device and no route has |
| MeetCapture.Capture.ReleaseTrack | browser-extension/src/page-capture.js:651-662 | A released tap leaves no partial block and no say about any source; all promises are kept |
| MeetCapture.Capture.ResetTapDecoder | browser-extension/src/page-capture.js:622-638 | After a decoder reset no sample decoded before it is left to be framed with a later one; all promises are kept |
| MeetCapture.Capture.OnNativePcm | browser-extension/src/page-capture.js:1631-1671 | A native chunk as one step that keeps all promises of a run and every device's channel |
| MeetCapture.Capture.OnDecodedPcm | browser-extension/src/page-capture.js:697-729 | A decoded chunk as one step that keeps them |
| MeetCapture.Capture.OnEncodedFrame | browser-extension/src/page-capture.js:837-920 | An encoded frame as one step that keeps them |
| MeetCapture.Capture.OnStart | browser-extension/src/page-capture.js:2102-2127 | No claim, lease or vote outlives a start and exactly the partial blocks of live taps are deleted; what waits for an owner stays, and all promises are kept |
| MeetCapture.Capture.OnGraphReady | browser-extension/src/page-capture.js:2144 | Afterwards no block waits on an owned route while capture is on, and all promises are kept |
| MeetCapture.Capture.OnHalt | browser-extension/src/page-capture.js:2032-2037 | Capture is off at once, as a step that keeps all promises |
| MeetCapture.Capture.OnCleanup | browser-extension/src/page-capture.js:2170-2205 | Nothing of this recording is left: no waiting or held audio, no live buffer, no vote and no claim; all promises are kept |
| PcmFraming.SplitIsLossless | browser-extension/src/pcm-worklet.js:10-28 | The blocks of the reference split and its residue are the stream again |
| PcmFraming.BlocksAreFull | browser-extension/src/pcm-worklet.js:10-28 | Every block has 2048 samples and the residue fewer |
| PcmFraming.SplitContinues | browser-extension/src/page-capture.js:1592-1612 | A chunk continues the kept residue: the blocks are those of the whole stream |
| PcmFraming.FramingIgnoresCuts | browser-extension/src/pcm-worklet.js:10-28 | However a stream is cut into chunks, framing emits the audible blocks of the whole stream in order |
| PcmFraming.KualiPcmProcessor.Process | browser-extension/src/pcm-worklet.js:10-28 | The worklet loop posts exactly the blocks of the reference split whose peak reaches 0.0005, keeps the residue, and its incremental peak is the recomputed one |
| RemoteAudioHealth.StallExactly | browser-extension/src/capture-policy.js:197-281 | A stall is reported if and only if the lane is audible, has been for 4 s without a pause of 750 ms, and no PCM came within 4 s and no recovery within 8 s |
| RemoteAudioHealth.SinceIsRunStart | browser-extension/src/capture-policy.js:232-256 | `audibleSince` is the start of the present audible run, and absent exactly if there is none |
| RemoteAudioHealth.QuietRecoveryBlinds | browser-extension/src/capture-policy.js:253-256 | After a recovery at a quiet instant no stall is reported while frames go on without a pause |
| MeetDecoder.AcceptedOutputIsFenced | browser-extension/src/page-capture.js:675-700 | Across any number of resets, an output that passes the checks was submitted to the current decoder, is paired with the route it was submitted under, and that route has not changed its owner since |
| MeetDecoder.SubmittedInArrivalOrder | browser-extension/src/page-capture.js:773-835 | Frames of one source are submitted in arrival order, each at most once |
| MeetDecoder.RunGrows | browser-extension/src/page-capture.js:785-812 | Submissions only accumulate, and a route's generation counts its owner changes |
| MeetDecoder.ResetRejects | browser-extension/src/page-capture.js:622-638 | After a reset no output of anything submitted before it is accepted |
| MeetDecoder.OwnerChangeRejects | browser-extension/src/page-capture.js:293-320 | After an owner change no output of anything submitted for the source before it is accepted |
| MeetDecoder.DrainSubmits | browser-extension/src/page-capture.js:814-835 | A drain only adds submissions, each of its source and of the generation the route has now |
| MeetSubmission.DrainExactly | browser-extension/src/page-capture.js:785-836 | A drain submits exactly the frames of the present owner among all but the newest held ones, in order and to one decoder, up to the first that fails, which is dropped while the later ones wait again; with capture off or the source not owned it submits none |
| MeetSubmission.DrainLeavesExactly | browser-extension/src/page-capture.js:790-817 | A drain that fails at a frame schedules a reset of the decoder, unless the decoder could not be made; one that does not fail schedules none, and the first frame tried replaces a failed decoder |
| MeetSubmission.OutputAcceptedExactly | browser-extension/src/page-capture.js:676-700 | Over every run, an output is accepted if and only if its submission was made to the present decoder of an open tap and has had no output before, capture is on, the route still has the owner it was submitted for, and the encoded path owns the source |
| MeetSubmission.OutputResetsExactly | browser-extension/src/page-capture.js:680-696 | Over every run, an output schedules a reset if and only if it is of the present decoder of an open tap, capture is on, and it is not its submission's first or the owner of the route has changed |
| MeetDecoder.EncodedTap.OnOwnerChanged | browser-extension/src/page-capture.js:261-269 | The queue of the source is empty and everything submitted for it is rejected from now on; the tap stays fenced and in order |
| MeetDecoder.EncodedTap.OnRestart | browser-extension/src/page-capture.js:2117-2127 | Nothing waiting or submitted leaks into the next recording |
| MeetDecoder.EncodedTap.OnStall | browser-extension/src/page-capture.js:622-638 | A replaced decoder has no output accepted any more |
| MeetDecoder.EncodedTap.OnDecoderError | browser-extension/src/page-capture.js:734-739 | An error of the present decoder takes it out of use and schedules its reset; a late one of an earlier decoder does nothing |
| MeetDecoder.EncodedTap.OnScheduledReset | browser-extension/src/page-capture.js:640-648 | The last reset scheduled leaves none outstanding, and an outdated one does nothing |
| MeetDecoder.EncodedTap.OnClose | browser-extension/src/page-capture.js:651-662 | A closed tap accepts nothing |
| MeetDecoder.EncodedTap.OnFrame | browser-extension/src/page-capture.js:773-783 | A frame waits behind those of its source before it, of which only the oldest beyond 125 go, under the generation its route has now |
| MeetDecoder.EncodedTap.DrainFallbackFrames | browser-extension/src/page-capture.js:814-835 | The draining loop submits all but the newest held frames, and drops the one that cannot be submitted |
| MeetDecoder.EncodedTap.OnDrain | browser-extension/src/page-capture.js:814-835 | What a drain submits is of the source, in arrival order over the whole run, and of the generation the route has now |
| MeetDecoder.EncodedTap.OnOutput | browser-extension/src/page-capture.js:675-700 | An output is accepted only from the decoder it was submitted to, for the route it was submitted under, while that route has the generation of then, and only once |
| MeetTapRuns.AcceptedFrameKeepsItsOwner | browser-extension/src/page-capture.js:675-700 | Over every run of a tap together with the routing machine, an accepted frame finds its route in the generation in which it arrived, so the owner of then is the owner now |
| MeetTapRuns.AcceptedAudioGoesToItsOwner | browser-extension/src/page-capture.js:697-729 | Whatever happens later in such a run, audio of that generation goes out only on the channel of the owner the route had when the frame arrived |
| MeetTapRuns.AcceptedIsDelivered | browser-extension/src/page-capture.js:697-729 | An accepted output is delivered to the route its frame arrived on, in the generation it arrived in |
| MeetTapRuns.DeliveredIsFollowed | browser-extension/src/page-capture.js:713-729 | A delivered chunk is pushed under the same route, held last in the challenge, dropped, or won by the challenger |
| MeetTapRuns.AcceptedSamplesAreFollowed | browser-extension/src/page-capture.js:675-729 | Over every joint run, the samples of an accepted output are pushed under the owner their frame arrived for and go out only on that owner's channel, or held and replayed at most to the challenger, or dropped without a trace, or won by the challenger and go out only on the challenger's channel |
| RedPayload.RedRoundTrip | browser-extension/src/capture-policy.js:320-344 | Unpacking the RFC 2198 packet of any redundant blocks under 1024 bytes and a non-empty accepted primary block returns exactly the primary block |
| RedPayload.UnpacksExactlyPackets | browser-extension/src/capture-policy.js:320-344 | Bytes unpack if and only if they are such a packet: headers or lengths past the end give nothing |
| RedPayload.UnpackedIsPacket | browser-extension/src/capture-policy.js:320-344 | What unpacks is the primary block of a well-formed packet |
| RedPayload.PayloadExactly | browser-extension/src/capture-policy.js:289-344 | A frame has an Opus payload if and only if it is said to be Opus, by itself or by the last codec of its payload type, or nothing is said and nothing else can be meant, and then it is that payload; or it is said to be redundant and is a packet with an Opus primary block |
| RedPayload.MeetPrimaryOpusPayload | browser-extension/src/capture-policy.js:289-344 | The header loop with its codec table computes that unpacking, or passes Opus through, or rejects |
| ProtoWire.VarintRoundTrip | browser-extension/src/meet-protocol.js:15-29 | Every number below 2^35 is read back from its encoding, wherever it stands |
| ProtoWire.ItemsRoundTrip | browser-extension/src/meet-protocol.js:58-67 | Every list of fields of wire types 0, 1, 2 and 5 is read back in order |
| ProtoEndings.NumberReads | browser-extension/src/meet-protocol.js:15-29 | Any number, however long and even cut off, is read as its first five groups, and reading goes on behind all of it |
| ProtoEndings.EndingsRead | browser-extension/src/meet-protocol.js:31-67 | Behind any list of fields, a zero tag ends the message, an unknown wire type throws, and a field that is cut off is what there is of it |
| MeetProtocol.ProtoReader.ReadVarint | browser-extension/src/meet-protocol.js:15-29 | The varint loop returns the specified value and leaves the cursor behind it, never before it or past the end |
| MeetProtocol.ProtoReader.ReadBytes | browser-extension/src/meet-protocol.js:31-37 | A length-delimited field, cut at the end of the message |
| MeetProtocol.ProtoReader.Skip | browser-extension/src/meet-protocol.js:43-55 | Steps over an unknown field, or tells that its wire type throws |
| MeetProtocol.Nested | browser-extension/src/meet-protocol.js:69-79 | The last payload of one field |
| MeetProtocol.DecodeUser | browser-extension/src/meet-protocol.js:81-112 | The user a message holds, none without an id, or the throw of a bad field |
| MeetProtocol.DecodeUserListWrapper | browser-extension/src/meet-protocol.js:114-125 | The users of a list in order |
| MeetProtocol.DecodeDeviceOutput | browser-extension/src/meet-protocol.js:127-157 | The device output a message holds, none without ids, or the throw of a bad field |
| MeetProtocol.DecodeCollectionBytes | browser-extension/src/meet-protocol.js:159-190 | All users and device outputs of a collection in order |
| MeetProtocolRoundTrip.UserRoundTrip | browser-extension/src/meet-protocol.js:81-112 | Any encoding of a user decodes to that user, or to nobody without an id: known fields in any order, defaults left out or not, the last occurrence counting, unknown fields anywhere |
| MeetProtocolRoundTrip.UserDecodesExactly | browser-extension/src/meet-protocol.js:81-112 | A list of fields decodes to a user if and only if it holds that user in this sense and the user has an id |
| MeetProtocolRoundTrip.NobodyDecodesExactly | browser-extension/src/meet-protocol.js:111 | A list of fields decodes to nobody if and only if it holds no id |
| MeetProtocolRoundTrip.AnyOrderEncodesUser | browser-extension/src/meet-protocol.js:81-112 | Writing the fields of a user in any order, any number of times, with or without those at their default, is such an encoding |
| MeetProtocolRoundTrip.OutputRoundTrip | browser-extension/src/meet-protocol.js:127-157 | The same for a device output, which needs both ids; of its status messages the last that sets the flag counts |
| MeetProtocolRoundTrip.AnyOrderEncodesOutput | browser-extension/src/meet-protocol.js:127-157 | Writing the fields of a device output in any order, with or without those at their default, is such an encoding |
| MeetProtocolRoundTrip.CollectionRoundTrip | browser-extension/src/meet-protocol.js:159-190 | Any encoding of a collection made of such users and outputs, unknown fields anywhere and parts interleaved, decodes to exactly those with their ids, in order; an empty one may leave out its body |
| MeetProtocolErrors.CollectionThrowsExactly | browser-extension/src/meet-protocol.js:58-190 | Decoding a packet throws if and only if a message that it opens, at any level, cannot be read |
| MeetProtocolRoundTrip.PlainUserEncoding | browser-extension/src/meet-protocol.js:81-112 | The plain encoding of a user is such an encoding |
| MeetProtocolRoundTrip.PlainOutputEncoding | browser-extension/src/meet-protocol.js:127-157 | The plain encoding of a device output is such an encoding |
| DeviceOutputIndex.IndexesEqualReplay | browser-extension/src/meet-protocol.js:228-253 | After any updates the two indexes are inverses, and hold an update exactly if no later one has its device and type or took its stream |
| DeviceOutputIndex.IndexEffect | browser-extension/src/meet-protocol.js:228-253 | What one update does to either index, entry by entry |
| DeviceOutputIndex.PresentAfter | browser-extension/src/meet-protocol.js:228-253 | One more update in the log supersedes exactly those of its device and type and of its stream |
| DeviceOutputIndex.StaleSourceIsGone | browser-extension/src/meet-protocol.js:228-253 | The stream a device left is in neither index afterwards |
| DeviceOutputIndex.Indexes.IndexDeviceOutput | browser-extension/src/meet-protocol.js:228-253 | The update in place equals the specification and returns the stream the device left |
| DiscordReceiver.RequestsKeepTheRules | crates/kuali-discord/src/receiver.rs:85-163 | Over every run, participant requests come 6 s after an unanswered announcement, with increasing attempts up to 3, 30 s apart, and at most one request is outstanding |
| DiscordReceiver.RequestFollowsSilence | crates/kuali-discord/src/receiver.rs:343-381 | Over every run, a participant request answers an announcement at least 6 s old with nothing of the user since |
| DiscordReceiver.AtMostThreeRequests | crates/kuali-discord/src/receiver.rs:85-163 | Between two resets at most three requests are made for a user |
| DiscordReceiver.WaitingMeansSilence | crates/kuali-discord/src/receiver.rs:165-198 | A user the watchdog waits for has been silent since the last announcement |
| DiscordReceiver.QueuedIsDueExactly | crates/kuali-discord/src/receiver.rs:104-144 | A request that is handed out keeps the request rules if and only if it answers 6 s of silence and comes 30 s after the last one |
| DiscordOverlap.AtMostOneOutstanding | crates/kuali-discord/src/receiver.rs:104-152 | In every interleaving of the atomic operations of any requests and handlers, at most one request is outstanding, no call holds the flag meanwhile, and no two calls ever hold it |
| DiscordOverlap.RequestsAnswerExpiry | crates/kuali-discord/src/receiver.rs:343-381 | In every interleaving a participant request answers an announcement 6 s old with nothing of the user heard until its watchdog expired, and is numbered at most 3 |
| DiscordOverlap.EventsStillReplay | crates/kuali-discord/src/receiver.rs:385-494 | In every interleaving the speaking events replay to who speaks |
| DiscordOverlap.CrowdedReadFirst | crates/kuali-discord/src/receiver.rs:93-131 | In every interleaving a commit whose cooldown read comes after another commit is at least 30 s later than it; so of two crowded commits the later call read the cooldown before the earlier one committed |
| DiscordOverlap.CommitSpacedExactly | crates/kuali-discord/src/receiver.rs:128-131 | A commit keeps all commits 30 s apart if and only if the cooldown, read again at the commit, is over |
| DiscordOverlap.AloneIsRequest | crates/kuali-discord/src/receiver.rs:86-144 | A call that nothing interrupts does exactly what the sequential request and its caller do |
| DiscordOverlap.OverlappingRequestsMayCrowd | crates/kuali-discord/src/receiver.rs:93-131 | A run from the start, through two announcements and two expired watchdogs, in which two requests are committed and sent in the same instant |
| DiscordReceiver.EventsReplayToSpeaking | crates/kuali-discord/src/receiver.rs:385-433 | Over every run, replaying the speaking events gives who speaks, every event is a change, and no audio event names Kuali |
| DiscordReceiver.TickSendsExactly | crates/kuali-discord/src/receiver.rs:385-433 | After every run, a tick adds exactly the audio of the packets with samples and an owner, in packet order, then the changes of who speaks, then itself |
| DiscordReceiver.StreamOwnerExactly | crates/kuali-discord/src/receiver.rs:327-338 | After every run, a stream belongs to a user if and only if the latest announcement of it by anyone but Kuali was the user's, who has not left since, nor was the driver lost |
| DiscordAnswers.SilenceIsAnsweredExactly | crates/kuali-discord/src/receiver.rs:343-381 | Over every run in which requests are taken, a watchdog that wakes up first while its announcement is unanswered makes the next request if none is outstanding, none was made within 30 s and the user had fewer than three, warns if only the last fails, and otherwise does nothing |
| DiscordAnswers.DriverLossIsAnsweredExactly | crates/kuali-discord/src/receiver.rs:451-494 | A lost driver stops who speaks, and ends the session if that was asked for; otherwise a request is made if none is outstanding and there were fewer than three since anyone was heard, and after three the session ends with a warning |
| DiscordAnswers.DepartureIsSent | crates/kuali-discord/src/receiver.rs:435-449 | Who leaves falls silent first if it spoke, and is announced to have left |
| DiscordReceiver.ChangesAlternate | crates/kuali-discord/src/receiver.rs:200-208 | Per user the changes strictly alternate and begin with a start |
| DiscordReceiver.DriverDownStream | crates/kuali-discord/src/receiver.rs:451-494 | After a lost driver the replay is empty |
| DiscordReceiver.Receiver.TryRecovery | crates/kuali-discord/src/receiver.rs:86-144 | One request: its outcome, counted attempt, cooldown and outstanding flag |
| DiscordReceiver.Receiver.OnSpeakingUpdate | crates/kuali-discord/src/receiver.rs:327-383 | Whoever is announced is waited for from now on, and its earlier watchdogs find nothing to do; all request and stream rules are kept |
| DiscordReceiver.Receiver.OnWatchdog | crates/kuali-discord/src/receiver.rs:343-381 | A watchdog makes a request only if its announcement is the user's last with nothing heard since, and never acts twice |
| DiscordReceiver.Receiver.OnVoiceTick | crates/kuali-discord/src/receiver.rs:385-433 | The loop sends the audio of exactly the packets that have samples and an owner, in order and in the owner's name, then who began and who stopped to speak, then the tick; those heard are who speaks in the replay |
| DiscordReceiver.Receiver.OnClientDisconnect | crates/kuali-discord/src/receiver.rs:435-449 | Who left speaks no more in the replay, has no stream, is not waited for, and starts over with three requests |
| DiscordReceiver.Receiver.OnDriverLost | crates/kuali-discord/src/receiver.rs:451-494 | A lost driver leaves nobody speaking in the replay and nobody waited for, and asks for recovery unless it was requested |
| DiscordReceiver.Receiver.FinishRecovery | crates/kuali-discord/src/receiver.rs:146-152 | No request is outstanding any more; all request and stream rules are kept |
| MetadataEdit.CommitsExactly | src/app.js:1290-1312 | A reload read, checked and loaded replaces the meeting on screen if and only if the same object was there at all three moments and no edit of it was open at any moment in between |
| MetadataEdit.CommitsAreUndisturbed | src/app.js:1290-1312 | Over every run with any edits and reloads, a loaded meeting is shown only if no edit of it was open between the first revision read and the commit |
| MetadataEdit.CountIsOpenEdits | src/app.js:2973-2992 | The edit count of a meeting is the number of its open edits, and positive exactly while one is open |
| MetadataEdit.OpenEditsCountEdits | src/app.js:2973-2988 | Without repetitions in an edit's list, that number counts edits |
| MetadataEdit.SameRevisionUndisturbed | src/app.js:2963-2988 | The revision is unchanged and no edit is open at the end if and only if none was open in between |
| MetadataEdit.Interface.BumpMeetingMetadataRevision | src/app.js:2967-2971 | The loop raises the revision of every listed meeting |
| MetadataEdit.Interface.BeginMeetingMetadataEdit | src/app.js:2973-2979 | Raises revision and count of every listed meeting |
| MetadataEdit.Interface.FinishMeetingMetadataEdit | src/app.js:2981-2988 | Raises the revisions, lowers the counts, and removes a count that would reach 0 |
| MetadataEdit.CheckIsExact | src/app.js:1290-1312 | Over every run, a check of a reload passes if and only if the object seen at its start is still on screen and no edit of the meeting was open at any moment since |
| MetadataEdit.Interface.StartRefresh | src/app.js:1290-1293 | A reload gets a number no other reload has |
| MetadataEdit.Interface.ContinueRefresh | src/app.js:1294-1298 | A reload goes on if and only if the object seen at its start is still on screen and no edit was open since |
| MetadataEdit.Interface.FinishRefresh | src/app.js:1300-1311 | What was loaded is shown if and only if that is still so |
| FactoryReset.CrashSafety | src-tauri/src/factory_reset.rs:90-120 | Through any number of interrupted launches, with Kuali in use between them, the request stays whole until everything is done, and one launch that runs to the end leaves what one uninterrupted reset would have left, but for directories made since |
| FactoryReset.ResetLeaves | src-tauri/src/factory_reset.rs:90-120 | The operations in order leave exactly: owned files and request gone, completion written, everything else untouched |
| FactoryReset.RequestGoesLast | src-tauri/src/factory_reset.rs:100-119 | The request is gone only when configuration, meetings and weights are and the completion marker is whole; other files are untouched |
| FactoryReset.StoppedReset | src-tauri/src/factory_reset.rs:90-120 | Wherever a reset stops, the request still stands and only owned files differ, or everything is done |
| FactoryReset.InterruptionNeverBlocks | src-tauri/src/factory_reset.rs:86-120 | If a reset could run to the end, it still can after it was stopped anywhere |
| FactoryReset.ResetPossibleExactly | src-tauri/src/factory_reset.rs:90-120 | Every operation of a reset can be done if and only if no directory stands where a file is removed or written and no file where the meetings are |
| FactoryReset.WeightsAre | crates/kuali-stt/src/model.rs:331-350 | The weights removed are exactly the official names directly in a listed directory |
| FactoryReset.ScheduleNeverTears | src-tauri/src/factory_reset.rs:67-80 | However a scheduling stops, the request file is the old one, absent or the whole new one, and an old one is lost only between the removal and the rename |
| FactoryReset.ScheduleRequests | src-tauri/src/factory_reset.rs:55-82 | A scheduling that runs to the end leaves the whole request, no completion marker, and other files as they were |
| FactoryReset.InterruptedSchedulingLosesARequest | src-tauri/src/factory_reset.rs:75-80 | Stopped between the removal and the rename, an earlier request is lost |
| FactoryReset.DistinctKeepsAll | src-tauri/src/factory_reset.rs:56-65 | The recorded directories are the candidates without repetitions |
| FactoryReset.FileSystem.ApplyPending | src-tauri/src/factory_reset.rs:90-120 | A reset is applied if and only if a readable request stands, every operation can be done and none of them fails, and then all is done; nothing is pending if and only if no request stands and reading does not fail, and nothing changes; any other outcome is a failure that leaves one of the interruptions above |
| FactoryReset.FileSystem.Schedule | src-tauri/src/factory_reset.rs:55-82 | Succeeds if and only if every operation of a scheduling can be done and none fails, and then all are done; otherwise they stop somewhere |
| FactoryReset.FileSystem.RemoveAllWhisperWeights | crates/kuali-stt/src/model.rs:331-350 | The two loops remove the files of every model, or stop somewhere |
| FactoryReset.FileSystem.RemoveDirectoryIfPresent | src-tauri/src/factory_reset.rs:139-145 | A tree is gone, or part of it |
| FactoryReset.FileSystem.ModelDirectories | src-tauri/src/factory_reset.rs:56-65 | The loop keeps the first of every repeated directory |
| FactoryReset.FileSystem.TakeCompleted | src-tauri/src/factory_reset.rs:122-129 | The completion marker is reported and removed if and only if it is a file and removing it does not fail |
| Transcript.PushingSortsStably | crates/kuali-core/src/meeting.rs:371-379 | In whatever order utterances arrive, the transcript is sorted by start and equal starts stay in arrival order |
| Transcript.StableSortIsUnique | crates/kuali-core/src/meeting.rs:371-379 | There is only one such list |
| Transcript.ReplacingKeepsOrderExactly | crates/kuali-core/src/meeting.rs:383-395 | Replacing an utterance in place keeps the order if and only if it fits between its neighbours |
| Transcript.UpsertsStaySorted | crates/kuali-core/src/meeting.rs:383-395 | If re-sent ids keep their start, every run of upserts leaves the transcript in order |
| Transcript.LastVersionsAreSaved | crates/kuali-core/src/meeting.rs:383-395 | After every run of upserts the transcript holds exactly the last version of every utterance, once |
| Transcript.LastVersionsAreShown | src/app.js:5264-5269 | And so does the interface |
| Transcript.ReplacingAgreesExactly | src/app.js:5264-5269 | The saved transcript and the interface agree on a replacement if and only if it fits and the next utterance starts strictly later |
| Transcript.ShownIsSaved | src/app.js:5264-5269 | With one start per id and no shared starts, the interface shows exactly the saved transcript after every run of upserts |
| Transcript.ShownStaysSorted | src/app.js:5264-5269 | The interface's list is in order after every upsert |
| Transcript.EqualStartsDisagree | src/app.js:5264-5269 | An utterance sent again unchanged passes the next one of the same start in the interface only |
| TranscriptText.Meeting.PushUtterance | crates/kuali-core/src/meeting.rs:371-379 | The search from the end inserts as specified |
| TranscriptText.Meeting.UpsertUtterance | crates/kuali-core/src/meeting.rs:383-395 | Replaces a known id in place or inserts, and tells which |
| TranscriptText.Meeting.UpsertSpeaker | crates/kuali-core/src/meeting.rs:358-367 | Replaces a known speaker or appends |
| TranscriptText.Meeting.TranscriptText | crates/kuali-core/src/meeting.rs:424-446 | The loop renders exactly the merged turns, which read back as `TranscriptReading.TranscriptReadsBack` says |
| TranscriptText.RunsAreMaximal | crates/kuali-core/src/meeting.rs:424-446 | The turns cut the transcript into runs of one speaker, and no two neighbours have the same |
| TranscriptText.OnlyMaximalRuns | crates/kuali-core/src/meeting.rs:424-446 | There is only one such cut |
| TranscriptText.DroppedExactly | crates/kuali-core/src/meeting.rs:509-519 | A turn leaves no line if and only if it is a single utterance without text |
| TranscriptReading.TranscriptReadsBack | crates/kuali-core/src/meeting.rs:424-446 | Read line by line, the transcript text says of every maximal turn with text, in order, its whole seconds, its speaker's name and its joined text, for names without a colon and blank and names and texts without line ends |
| TranscriptReading.TurnKeepsWords | crates/kuali-core/src/meeting.rs:428-441 | The words of a turn's text are the words of its utterances in order |
| Text.TrimExactly | crates/kuali-core/src/meeting.rs:430-438 | Trimming takes away exactly the white space around a text |
| TranscriptText.TimestampRoundTrip | crates/kuali-core/src/meeting.rs:521-529 | A timestamp reads back as the whole seconds, with and without hours |
| TranscriptText.UpsertNames | crates/kuali-core/src/meeting.rs:352-367 | An upsert names its speaker and leaves every other name, known or not |
| TranscriptText.ShownTranscript.UpsertUtterance | src/app.js:5264-5269 | Takes a known id out and inserts anew, by search from both ends |
| Tags.NormalizeSettles | crates/kuali-core/src/meeting.rs:247-252 | A normalized name has only single inner blanks, at most the limit of characters, is settled, and is empty exactly for white space |
| Tags.NormalizeKeepsWords | crates/kuali-core/src/meeting.rs:247-252 | A normalized name is the words of the name with single blanks between them, cut at the limit and without a blank the cut leaves at the end |
| Tags.FolderExactly | crates/kuali-core/src/meeting.rs:247-252 | A folder is named if and only if the name has more than white space |
| Tags.SanitizedIsSettled | crates/kuali-core/src/meeting.rs:254-270 | At most 12 tags, clean, short, and no two alike |
| Tags.SanitizingTwice | crates/kuali-core/src/meeting.rs:254-270 | Sanitizing sanitized tags changes nothing |
| Tags.EveryTagIsKept | crates/kuali-core/src/meeting.rs:254-270 | Below the limit every tag given is kept in one spelling, and nothing else is |
| Tags.FirstSpellingIsKept | crates/kuali-core/src/meeting.rs:254-270 | The spelling kept is the one given first |
| Tags.SanitizeTags | crates/kuali-core/src/meeting.rs:254-270 | The loop with its early end computes exactly that list |

## Left out

- Times and samples are reals without rounding, NaN or infinities; a level or timestamp that is no finite number is an absent one.
- MeetLifecycle.EveryBlockIsAttributed: takes from the event loop that no protocol message arrives between a superseded start and the next one, because promises and microtasks are not modelled.
- MeetChannels.RoutesAvoidReservedChannels: needs the counter to stay below 999, because the source does not bound it.
- MeetTapRuns.AcceptedAudioGoesToItsOwner: is about one tap; what other taps and tracks feed to the machine are arbitrary steps of it.
- MeetOwnership.OwnedStaysOwned: needs a protocol that names its devices, because a blank id takes an owner away; MeetOwnership.OwnerLostExactly says exactly when.
- PcmArbitration.ConsecutiveBlocksSpaced: leaves out blocks with an owner change or a start between them, because both drop the lease; PcmArbitration.OwnerChangeLiftsSpacing shows it.
- DiscordReceiver.RequestsKeepTheRules: is about handlers that run one after the other; the `DiscordOverlap` results say what holds of overlapping calls, and in which case the 30 s do not.
- DiscordAnswers.SilenceIsAnsweredExactly: is about runs in which the recovery task takes every request; an attempt that could not be handed over is counted too, which DiscordReceiver.Receiver.TryRecovery says.
- DiscordReceiver.Receiver.OnSpeakingUpdate: the watchdog generation is unbounded, without the wrap-around of 64 bits.
- FactoryReset.CrashSafety: between two launches only owned paths and new directories may change; files written elsewhere and a second scheduling while one is pending are excluded, and FactoryReset.InterruptedSchedulingLosesARequest shows what the latter can do. Removal of one file and a rename are atomic, what the file system itself may lose is not modelled, and file permissions are a step that can fail and changes nothing.
- FactoryReset.FileSystem.ApplyPending: which operation fails, if any, is an input; how much of a tree is left or of a file is written by the one that fails is not.
- TranscriptReading.TranscriptReadsBack: a name with a colon and a blank, or a line end in a name or text, makes the text ambiguous, and is left out.
- Transcript.PushingSortsStably: utterances without their confidence, which no modelled function reads.
- Tags.SanitizeTags: lower-casing is a parameter.
- Audio that Meet publishes is kept per source; the bytes of messages to the background page, the bindings of names, the announcement events and the codec refresh are not.
- Of a device output the routing machine keeps its stream and device; `disabled` and `revision` do not influence routing.
- The candidates' tiles, rosters, names and avatars; a candidate is a device id, a flag for oneself, and an input of the step.
- The microphone hand-off, whose requests can outlive a stop, and `background.js`, which is messaging around frame channels.
- WebRTC, WebCodecs, AudioContext and resampling: decoders exist and return the timestamps they are given, and peaks and levels are inputs.
- `selectMeetContributingSource` and `updateMeetReceiverLease`, which no routing step calls.
- The tracks of Zoom and Teams and the mixed fallback, which do not go through Meet routes.
- DecompressionStream, TextDecoder and base64: messages are inflated bytes, and strings of the protocol are bytes.
- Discord audio itself, the resolution of names, tracing and warning texts.
- The texts of errors, the size of removed weights, and the confirmation sentence of a reset.
- Rendering, settings, translations and the search index of the interface.
