# Project Gatekeeper in Dafny

Project Gatekeeper is a mobile-only web experience. A visitor's device is fingerprinted and checked against a local ledger of rejections. The visitor then goes through a fixed sequence of phases: an entry screen, a simulated speed test, three permission requests, three voice "listening" cycles, and finally acceptance with a name-and-phone form. A denied permission ends in rejection, and a rejected device is shut out for about six months. Behind the screens, a procedurally generated 3D constellation follows the phase with smoothed visual parameters.

This project models the logic of that system and proves properties of it:

- **Constellation generator** (`constellation.dfy`): the Mulberry32 generator on 32-bit words, node generation with its five draws per node and the hub/normal hierarchy split, and greedy, degree-capped, shortest-first edge selection over an array of nodes.
- **Device identity ledger** (`device_identity.dfy`): the dual djb2 fingerprint hash with its 16-digit hex encoding, the ledger in browser storage, its two writers, the cooldown arithmetic and the stubbed IP check.
- **Global reducer and constants** (`gatekeeper_context.dfy`, `constants.dfy`, `types.dfy`): the shared state, its reducer, and the constant tables.
- **Per-frame smoothing** (`web_of_thought.dfy`): the five phase-driven visual parameters and the per-node activation array.
- **Phone form** (`phone_input.dfy`): formatting, validation and the delayed submit.
- **Simulated speed test hook** (`use_speed_test.dfy`).
- **Orchestrator and phase screens**: `experience.dfy` and the seven phase-screen files. Each phase screen is a class whose fields are the component's state cells and pending timers, with a log of what it dispatched and wrote.
- **The phase graph** (`phase_graph.dfy`): how the phase screens fit together into one flow.

Modelling conventions:

- Timers are fields holding their absolute due time. A method named `...TimerFires` runs the callback at that time.
- User events are methods. An event on a control that is not rendered, or is disabled, changes nothing. Pressing Enter in a field of the phone form is the same as pressing its submit button.
- The current time, random draws, permission answers, audio levels and the ledger's storage are parameters.
- Numbers are `real`, integer milliseconds are `int`, and JavaScript's 32-bit operations are written out on `bv32` words or on naturals below 2^32.

## Model

| member | source | states |
|---|---|---|
| Constellation.Draw | src/lib/constellation.ts:17-21 | every draw is an unsigned 32-bit word divided by 2^32, so it lies in [0, 1) |
| Constellation.AdvanceAdds | src/lib/constellation.ts:14-19 | the state after j draws and then k more is the state after j + k draws; each draw applies the same wrapping add of 0x6D2B79F5 |
| Constellation.BitsValueBound | src/lib/constellation.ts:21 | the unsigned reading (`>>> 0`) of the low n bits of a word is below 2^n |
| Constellation.Mulberry32.constructor | src/lib/constellation.ts:14-15 | the captured state is the seed coerced to a 32-bit word |
| Constellation.Mulberry32.Next | src/lib/constellation.ts:16-22 | one call advances the state by exactly one step and returns the draw for the new state |
| Constellation.HierarchyBands | src/lib/constellation.ts:67-70 | hubs get a weight in [0.7, 1) and others one in [0.1, 0.5), so "weight is at least 0.7" holds exactly for nodes drawn as hubs |
| Constellation.NodeAtIsHubIffDrawnAsHub | src/lib/constellation.ts:48-78 | a generated node counts as a hub iff its fourth draw is below hubProbability; its weight is in [0.1, 1), its index is its position and its count starts at 0 |
| Constellation.RadiusWithinShell | src/lib/constellation.ts:59-60 | the radius lies in [R(1 - v/2), R(1 + v/2)) |
| Constellation.GenerateNode | src/lib/constellation.ts:49-76 | one loop iteration consumes exactly five draws and builds the node from them in the fixed order |
| Constellation.GenerateNodes | src/lib/constellation.ts:41-80 | exactly nodeCount nodes, node i drawn after the 5i draws of the nodes before it, and 5 * nodeCount draws consumed in all |
| Constellation.RowSound | src/lib/constellation.ts:94-103 | the inner loop pushes only valid candidates from node i to nodes after it |
| Constellation.RowsSound | src/lib/constellation.ts:93-104 | the outer loop pushes only valid candidates whose source row has been visited |
| Constellation.RowComplete | src/lib/constellation.ts:94-103 | every valid candidate from node i to a visited j was pushed by the inner loop |
| Constellation.RowsComplete | src/lib/constellation.ts:93-104 | every valid candidate from a visited row was pushed |
| Constellation.CandidatesExactly | src/lib/constellation.ts:93-104 | an edge is a candidate iff it joins i < j < nodes.length, has the measured length, and is shorter than the threshold |
| Constellation.RowOrdered | src/lib/constellation.ts:94-103 | one row's candidates come out in strictly increasing pair order |
| Constellation.RowsOrdered | src/lib/constellation.ts:93-104 | all candidates come out in strictly increasing pair order |
| Constellation.RowsBeforeRow | src/lib/constellation.ts:93-104 | the candidates of the earlier rows all come before those of the next row |
| Constellation.CandidatesOrdered | src/lib/constellation.ts:93-104 | candidates are in pair order, so no unordered pair is listed twice |
| Constellation.InsertSorted | src/lib/constellation.ts:107 | inserting into a list sorted by length keeps it sorted |
| Constellation.InsertMultiset | src/lib/constellation.ts:107 | inserting adds that one edge to the list's multiset of elements |
| Constellation.InsertOfLength | src/lib/constellation.ts:107 | insertion is stable: the edges of any one length keep their relative order |
| Constellation.SortFacts | src/lib/constellation.ts:107 | the sort yields a length-sorted permutation of its input that keeps equal-length edges in input order |
| Constellation.OrderedHasNoRepeats | src/lib/constellation.ts:93-104 | a strictly pair-ordered list has no repeated element |
| Constellation.SortKeepsNoRepeats | src/lib/constellation.ts:107 | sorting a list without repeats yields a list without repeats |
| Constellation.SelectWithinCaps | src/lib/constellation.ts:113-128 | after the greedy pass each node's degree is at most its cap (hubMinConnections + 4 for hubs, normalMaxConnections otherwise) |
| Constellation.SelectFromCandidates | src/lib/constellation.ts:113-128 | the greedy pass accepts only candidates, each no more often than it occurs |
| Constellation.SelectSorted | src/lib/constellation.ts:113-128 | accepting in candidate order keeps the accepted list sorted by length |
| Constellation.SelectMaximal | src/lib/constellation.ts:113-128 | every rejected candidate has an endpoint whose degree equals its cap (greedy maximality) |
| Constellation.SelectSubsequence | src/lib/constellation.ts:113-128 | the accepted edges are a subsequence of the candidates, in order |
| Constellation.SelectNoRepeats | src/lib/constellation.ts:113-128 | no pair is accepted twice |
| Constellation.SortedCandidatesInRange | src/lib/constellation.ts:107-115 | every sorted candidate's endpoints index the node array |
| Constellation.CollectCandidates | src/lib/constellation.ts:90-104 | the nested loops return exactly the candidate list in visiting order |
| Constellation.AcceptGreedily | src/lib/constellation.ts:110-128 | the greedy loop returns the selection, and each counter equals the number of accepted edges touching that node |
| Constellation.GenerateEdges | src/lib/constellation.ts:85-136 | returns the greedy selection over the length-sorted candidates and writes each node's degree back into its connection count, leaving the rest of each node unchanged |
| Constellation.GenerateConstellation | src/lib/constellation.ts:28-35 | the same configuration and metric always give the same node and edge lists |
| Constellation.EdgesAreCandidates | src/lib/constellation.ts:93-128 | every returned edge satisfies from < to < nodes.length and is shorter than connectionThreshold |
| Constellation.EdgesSorted | src/lib/constellation.ts:107-128 | the returned edges are sorted shortest first |
| Constellation.EdgesDistinct | src/lib/constellation.ts:93-128 | no unordered pair occurs twice among the returned edges |
| Constellation.EdgesFromSortedCandidates | src/lib/constellation.ts:107-128 | the returned edges are a subsequence of the sorted candidates, and no candidates give no edges |
| Constellation.EdgesCappedAndMaximal | src/lib/constellation.ts:110-128 | each degree is within its cap, and every valid candidate left out has an endpoint at its cap |
| Constellation.ConstellationNodes | src/lib/constellation.ts:28-35 | the constellation has nodeCount nodes; each keeps its index and weight band, and its connection count is its degree, within its cap |
| Constellation.ConstellationEdges | src/lib/constellation.ts:28-35 | the constellation's edges are valid, sorted, distinct, capped and greedily maximal against the final nodes |
| DeviceIdentity.XorBitwise | src/lib/deviceIdentity.ts:59-60 | the modelled xor is bitwise: bit i of the result is set iff i < k and bit i differs between the operands |
| DeviceIdentity.Djb2Bound | src/lib/deviceIdentity.ts:55-61 | each accumulator stays an unsigned 32-bit value |
| DeviceIdentity.Djb2StepBits | src/lib/deviceIdentity.ts:59-60 | a step xors the code unit into the wrapped product h * 33; a code unit never changes bits 16 and up |
| DeviceIdentity.HexDigit | src/lib/deviceIdentity.ts:63-64 | each hex digit is a lowercase hex character |
| DeviceIdentity.PadStart | src/lib/deviceIdentity.ts:63-64 | padStart fills on the left up to the length and keeps the string as its suffix |
| DeviceIdentity.ToHexDecodes | src/lib/deviceIdentity.ts:63-64 | toString(16) gives lowercase hex digits that read back as the number |
| DeviceIdentity.ToHexLength | src/lib/deviceIdentity.ts:63-64 | a number below 16^k has at most k hex digits |
| DeviceIdentity.Hex8Decodes | src/lib/deviceIdentity.ts:63-64 | a 32-bit value pads to exactly 8 lowercase hex digits that read back as the value |
| DeviceIdentity.HashString | src/lib/deviceIdentity.ts:54-66 | the loop over the code units computes the specified hash |
| DeviceIdentity.HashShape | src/lib/deviceIdentity.ts:54-66 | the hash is 16 lowercase hex digits, whose two halves read back as the accumulators seeded 5381 and 52711 |
| DeviceIdentity.HashDeterminesAccumulators | src/lib/deviceIdentity.ts:62-65 | equal hashes mean equal accumulators (the encoding loses nothing) |
| DeviceIdentity.HashOfEmpty | src/lib/deviceIdentity.ts:54-66 | the empty input hashes to "000015050000cde7" |
| DeviceIdentity.Loaded | src/lib/deviceIdentity.ts:72-79 | unavailable or unparsable storage gives nothing, absent storage gives the empty map, and stored records give their map |
| DeviceIdentity.LookupIn | src/lib/deviceIdentity.ts:71-80 | a record is found iff storage holds records including that fingerprint, and it is that record |
| DeviceIdentity.IdentityStore.GetDeviceRecord | src/lib/deviceIdentity.ts:71-80 | getDeviceRecord returns the stored record for the fingerprint, or null |
| DeviceIdentity.IdentityStore.RecordRejection | src/lib/deviceIdentity.ts:85-102 | the store afterwards is the rejection update of the store before; writability is unchanged |
| DeviceIdentity.IdentityStore.RecordAttempt | src/lib/deviceIdentity.ts:107-125 | the store afterwards is the attempt update of the store before; writability is unchanged |
| DeviceIdentity.RejectionRecord | src/lib/deviceIdentity.ts:85-98 | a successful write sets rejectedAt to now and attempts to the old count plus 1 (1 if absent), and keeps a non-zero firstSeenAt (otherwise now) |
| DeviceIdentity.AttemptRecord | src/lib/deviceIdentity.ts:107-121 | an existing record leaves the store unchanged; otherwise {attempts 1, rejectedAt null, firstSeenAt now} is written |
| DeviceIdentity.AttemptIdempotent | src/lib/deviceIdentity.ts:107-121 | recording an attempt twice is the same as recording it once |
| DeviceIdentity.WritersTouchOneEntry | src/lib/deviceIdentity.ts:88-98 | both writers leave every other fingerprint's record unchanged |
| DeviceIdentity.FailuresAreSilent | src/lib/deviceIdentity.ts:72-79 | failing storage makes both writers no-ops, and unavailable or corrupt storage yields no record |
| DeviceIdentity.AbsentIsEmpty | src/lib/deviceIdentity.ts:74 | absent storage behaves exactly like an empty map for lookup and for both writers |
| DeviceIdentity.CooldownUntilExpiry | src/lib/deviceIdentity.ts:130-141 | a record is in cooldown iff it has an expiry date and now is before it; there is no expiry when rejectedAt is null or 0 |
| DeviceIdentity.CooldownEnds | src/lib/deviceIdentity.ts:130-133 | once a cooldown is over it stays over |
| DeviceIdentity.RejectionStartsCooldown | src/lib/deviceIdentity.ts:85-98 | after a successful rejection write the record exists and is in cooldown at t iff now != 0 and t < now + 15,552,000,000 |
| DeviceIdentity.CheckIpHistory | src/lib/deviceIdentity.ts:148-159 | the IP check always reports null |
| Constants.PhaseTargetsWithinRanges | src/lib/constants.ts:66-75 | every row has intensity in [0, 1.5] and the other four parameters in [0, 1] |
| Constants.OnlyRejectionScattersOrFades | src/lib/constants.ts:66-75 | REJECTION, with targets (0, 0, 0, 1, 0), is exactly the row with scatter != 0 or fade != 1 |
| Constants.OnlyAcceptanceConverges | src/lib/constants.ts:66-75 | ACCEPTANCE is exactly the row with converge != 0, and its intensity 1.5 is the largest |
| Constants.HubCapExceedsNormalCap | src/lib/constants.ts:28-29 | the hub cap hubMinConnections + 4 = 9 exceeds normalMaxConnections = 4 |
| Constants.CooldownValue | src/lib/constants.ts:61 | the cooldown is 15,552,000,000 ms, which exceeds 2^32 |
| Constants.SpeedTestTable | src/lib/constants.ts:37-45 | every speed-test range has low < high, and the full run lasts 11,400 ms |
| GatekeeperContext.Reduce | src/context/GatekeeperContext.tsx:33-66 | each action changes only the fields it names; SET_PERMISSION changes only the named permission |
| GatekeeperContext.InitialValues | src/context/GatekeeperContext.tsx:16-31 | the initial state is DEVICE_CHECK, all permissions pending, no speed result, silence, empty name and phone, no fingerprint, no stream |
| GatekeeperContext.ReduceWritesPayload | src/context/GatekeeperContext.tsx:35-62 | each action writes its payload into its fields |
| GatekeeperContext.AnyPhaseReachable | src/context/GatekeeperContext.tsx:35-36 | SET_PHASE accepts any target from any phase; the reducer enforces no order |
| GatekeeperContext.ReduceIdempotent | src/context/GatekeeperContext.tsx:33-66 | applying the same action twice equals applying it once |
| GatekeeperContext.UnrecognisedIsIdentity | src/context/GatekeeperContext.tsx:63-64 | an unrecognised action returns the state unchanged |
| GatekeeperContext.DisjointActionsCommute | src/context/GatekeeperContext.tsx:33-66 | actions writing disjoint fields commute |
| GatekeeperContext.ReduceAllPhase | src/context/GatekeeperContext.tsx:35-36 | after a sequence of dispatches the phase is the target of the last SET_PHASE, or the starting phase if there was none |
| WebOfThought.LerpBetween | src/components/three/WebOfThought.tsx:19 | for t in [0, 1], lerp(a, b, t) lies between a and b |
| WebOfThought.LerpDistance | src/components/three/WebOfThought.tsx:19 | for t in [0, 1], the distance to b after lerp is (1 - t) times the distance before |
| WebOfThought.SmoothStepContracts | src/components/three/WebOfThought.tsx:62-71 | each frame shrinks the gap to the phase's target by a factor 0.97 (0.955 for scatter, which moves at rate 0.045) |
| WebOfThought.SmoothStepWithinRanges | src/components/three/WebOfThought.tsx:62-71 | a frame keeps the smoothed values inside the table's ranges |
| WebOfThought.SmoothedAlwaysWithinRanges | src/components/three/WebOfThought.tsx:44-52 | starting from (0, 0.2, 1, 0, 0), under any sequence of phases, the values stay inside the table's ranges |
| WebOfThought.ActivationRate | src/components/three/WebOfThought.tsx:91-110 | every per-phase activation rate is in (0, 1) |
| WebOfThought.ActivationStep | src/components/three/WebOfThought.tsx:91-110 | the activation update keeps the array's length |
| WebOfThought.ActivationTargetInUnit | src/components/three/WebOfThought.tsx:91-110 | each phase's activation target is in [0, 1] when the audio level and weight are |
| WebOfThought.ActivationStaysInUnit | src/components/three/WebOfThought.tsx:91-110 | activations in [0, 1] stay in [0, 1] after a frame |
| WebOfThought.ActivationApproachesTarget | src/components/three/WebOfThought.tsx:91-110 | each activation moves toward its phase's target: 0.1 toward max(0, 1 - d/3) in SPEED_TEST, 0.15 toward the audio-weighted value in VOICE_INTERFACE, 0.02 toward 0.8 in ACCEPTANCE, 0.05 toward 0 otherwise |
| WebOfThought.Scene.constructor | src/components/three/WebOfThought.tsx:37-55 | the scene holds the generated constellation, all-zero activations and the initial smoothed values |
| WebOfThought.Scene.Frame | src/components/three/WebOfThought.tsx:60-110 | one frame smooths the five values toward the phase targets, copies audio level and pulse through, activates the probe iff SPEED_TEST, and updates every activation |
| WebOfThought.Scene.EaseActivations | src/components/three/WebOfThought.tsx:91-110 | the loop over the activation array performs exactly the specified update |
| WebOfThought.SceneActivationInUnit | src/components/three/WebOfThought.tsx:91-110 | over the generated constellation, activations stay in [0, 1] |
| PhoneInput.Digits | src/components/ui/PhoneInput.tsx:20 | digit extraction keeps only ASCII digits and never lengthens the string |
| PhoneInput.DigitsAppend | src/components/ui/PhoneInput.tsx:20 | extracting the digits of a concatenation concatenates the extracted digits |
| PhoneInput.DigitsOfDigits | src/components/ui/PhoneInput.tsx:20 | a digit string is its own digits |
| PhoneInput.FormatPhoneShape | src/components/ui/PhoneInput.tsx:21-23 | up to 3 digits give the digits, 4-6 give "(ddd) " and the rest, 7 or more give "(ddd) ddd-dddd" from the first 10 |
| PhoneInput.DigitsOfMediumLayout | src/components/ui/PhoneInput.tsx:22 | the 4-6 digit layout holds exactly its digits |
| PhoneInput.DigitsOfLongLayout | src/components/ui/PhoneInput.tsx:23 | the long layout holds the first 10 digits |
| PhoneInput.FormatPhoneDigits | src/components/ui/PhoneInput.tsx:20-23 | the digits of the formatted phone are the input's digits, cut at 10 |
| PhoneInput.LayoutFirstTen | src/components/ui/PhoneInput.tsx:21-23 | the layout depends only on the first 10 digits |
| PhoneInput.FormatPhoneIdempotent | src/components/ui/PhoneInput.tsx:19-24 | formatting a formatted phone changes nothing |
| PhoneInput.TrimStart | src/components/ui/PhoneInput.tsx:32 | leading whitespace is removed and the rest kept |
| PhoneInput.TrimEnd | src/components/ui/PhoneInput.tsx:32 | trailing whitespace is removed and the rest kept |
| PhoneInput.TrimEmptyIff | src/components/ui/PhoneInput.tsx:32 | trim is empty iff the string is all whitespace |
| PhoneInput.ValidFormattedPhone | src/components/ui/PhoneInput.tsx:40 | for a formatted phone, isValid means a non-blank name and exactly 10 digits |
| PhoneInput.ValidPassesGuard | src/components/ui/PhoneInput.tsx:32-40 | a valid form passes the submit guard |
| PhoneInput.GuardWeakerThanValid | src/components/ui/PhoneInput.tsx:32-40 | the submit guard lets through input that isValid rejects (one digit) |
| PhoneInput.PhoneForm.constructor | src/components/ui/PhoneInput.tsx:15-17 | the form starts empty, not submitting, with nothing pending or delivered |
| PhoneInput.PhoneForm.NameChanged | src/components/ui/PhoneInput.tsx:66 | typing a name stores it unchanged |
| PhoneInput.PhoneForm.PhoneChanged | src/components/ui/PhoneInput.tsx:26-28 | typing a phone stores its formatted form |
| PhoneInput.PhoneForm.Submit | src/components/ui/PhoneInput.tsx:30-38 | with a non-blank trimmed name and phone, it sets isSubmitting and queues a 500 ms delivery of the trimmed name and phone; otherwise nothing |
| PhoneInput.PhoneForm.SubmitPressed | src/components/ui/PhoneInput.tsx:92-95 | while the button is disabled (invalid form or already submitting) a press changes nothing; otherwise the trimmed name and the phone exactly as shown are queued and the form is submitting, so at most one submission is ever queued |
| PhoneInput.PhoneForm.TimerFires | src/components/ui/PhoneInput.tsx:35-37 | the oldest queued delivery calls onSubmit in order |
| PhoneInput.FormattedSubmissionIsTrimmed | src/components/ui/PhoneInput.tsx:36-40 | a valid formatted phone passes the guard and is its own trim |
| UseSpeedTest.StageBoundaries | src/hooks/useSpeedTest.ts:61-86 | latency up to 3400 ms, download up to 7800 ms, upload up to 10600 ms, complete afterwards |
| UseSpeedTest.StageMonotone | src/hooks/useSpeedTest.ts:61-86 | the stage only moves forward as time grows |
| UseSpeedTest.ProgressBounds | src/hooks/useSpeedTest.ts:45-55 | progress is in [0, 1], reaches 1 exactly at 11,400 ms, and by then the run is complete |
| UseSpeedTest.EaseOutCubicEnds | src/hooks/useSpeedTest.ts:49 | easeOutCubic is 0 at 0 and 1 at 1 |
| UseSpeedTest.EaseOutCubicBounded | src/hooks/useSpeedTest.ts:49 | easeOutCubic maps [0, 1] into [0, 1] |
| UseSpeedTest.EaseOutCubicMonotone | src/hooks/useSpeedTest.ts:49 | easeOutCubic is nondecreasing on [0, 1] |
| UseSpeedTest.TargetInRange | src/hooks/useSpeedTest.ts:41-43 | a target drawn with r in [0, 1) lies in [low, high) |
| UseSpeedTest.TargetsInRanges | src/hooks/useSpeedTest.ts:37-43 | all three targets of a run lie in their ranges |
| UseSpeedTest.Round1Close | src/hooks/useSpeedTest.ts:93-95 | rounding to one decimal moves a value by at most 0.05 |
| UseSpeedTest.CompleteShowsTargets | src/hooks/useSpeedTest.ts:84-96 | in the final hold the display shows the targets, rounded to one decimal |
| UseSpeedTest.NotStartedShowsZero | src/hooks/useSpeedTest.ts:58-81 | a metric shows 0 before its start |
| UseSpeedTest.SpeedTestHook.constructor | src/hooks/useSpeedTest.ts:22-31 | the hook starts idle, not running, with no frame requested and no completion |
| UseSpeedTest.SpeedTestHook.Start | src/hooks/useSpeedTest.ts:33-46 | while a run is in progress, start changes nothing: state, targets, start time and the running frame stay; otherwise it draws the targets, records the start time, shows latency and requests a frame |
| UseSpeedTest.SpeedTestHook.Tick | src/hooks/useSpeedTest.ts:53-110 | a frame shows the tick's state; before progress 1 it requests the next frame, at progress 1 it ends the run and reports the rounded targets once |
| UseSpeedTest.SpeedTestHook.Cleanup | src/hooks/useSpeedTest.ts:115-118 | the cleanup cancels the pending frame and clears isRunning |
| Experience.Render | src/components/Experience.tsx:38-60 | not mobile renders only the desktop gate, undetermined renders the loading view, mobile renders the phase's screen |
| Experience.ScreenPerPhase | src/components/Experience.tsx:77-137 | each of the eight phases selects a screen, and different phases select different screens |
| Experience.OtherStringsRenderNothing | src/components/Experience.tsx:77-137 | any other string renders nothing |
| Experience.Host.constructor | src/components/Experience.tsx:32-34 | the host starts undetermined, in the initial state, with no timer and no dispatch |
| Experience.Host.DeviceDetected | src/hooks/useDeviceDetect.ts:12-27 | a detection result is stored; becoming mobile in DEVICE_CHECK arms the 300 ms timer, and becoming non-mobile clears it |
| Experience.Host.Dispatch | src/components/Experience.tsx:57-75 | a dispatch goes through the reducer; a phase change remounts the renderer, which clears the old timer and arms a new one only in DEVICE_CHECK |
| Experience.Host.AdvanceTimerFires | src/components/Experience.tsx:68-75 | the timer fires only on mobile in DEVICE_CHECK and dispatches SET_PHASE RETURNING_CHECK |
| Experience.Host.Teardown | src/components/Experience.tsx:73 | unmounting clears the timer |
| ReturningCheckPhase.IsBlocked | src/hooks/useDeviceFingerprint.ts:32-45 | a device is blocked iff its record exists, has an expiry, and now is before that expiry |
| ReturningCheckPhase.CheckOutcomes | src/components/phases/ReturningCheckPhase.tsx:35-55 | every outcome dispatches SET_FINGERPRINT first; only the clean outcome records an attempt; no outcome dispatches a phase; blocked iff the device is blocked |
| ReturningCheckPhase.StubNeverGates | src/components/phases/ReturningCheckPhase.tsx:44-48 | with the IP check returning null, a device is blocked or clean, never at the honesty gate |
| ReturningCheckPhase.ReturningCheck.constructor | src/components/phases/ReturningCheckPhase.tsx:28-30 | the screen starts loading, checking, with no warning and no timers |
| ReturningCheckPhase.ReturningCheck.FingerprintReady | src/components/phases/ReturningCheckPhase.tsx:32-58 | the fingerprint and block status arrive once from the ledger; only a non-empty fingerprint arms the check 1000 ms later |
| ReturningCheckPhase.ReturningCheck.CheckTimerFires | src/components/phases/ReturningCheckPhase.tsx:35-55 | the check logs the branch's effects and sets the verdict; a clean verdict arms SET_PHASE ENTRY 600 ms later; a blocked state does nothing |
| ReturningCheckPhase.ReturningCheck.AdvanceTimerFires | src/components/phases/ReturningCheckPhase.tsx:62-69 | the clean timer dispatches SET_PHASE ENTRY |
| ReturningCheckPhase.ReturningCheck.PressNotSought | src/components/phases/ReturningCheckPhase.tsx:172 | at the honesty gate, this button shows the warning; it dispatches nothing |
| ReturningCheckPhase.ReturningCheck.PressProceed | src/components/phases/ReturningCheckPhase.tsx:79-83 | proceed records an attempt and dispatches ENTRY, only after the warning step and with a fingerprint |
| ReturningCheckPhase.ReturningCheck.PressExit | src/components/phases/ReturningCheckPhase.tsx:85-88 | both exit buttons set 'blocked' and dispatch nothing |
| ReturningCheckPhase.ReturningCheck.Teardown | src/components/phases/ReturningCheckPhase.tsx:58-67 | unmounting clears both timers |
| EntryPhase.Schedule | src/components/phases/EntryPhase.tsx:16-28 | stage 1 from 400 ms, stage 2 from 3500 ms; SET_PHASE SPEED_TEST once, at 6300 ms, and no other phase |
| EntryPhase.StageMonotone | src/components/phases/EntryPhase.tsx:16-28 | the stage never decreases, and the dispatch, once made, stays made |
| EntryPhase.Entry.constructor | src/components/phases/EntryPhase.tsx:18-28 | mounting arms the three timers at +400, +3500 and +6300 ms |
| EntryPhase.Entry.Elapse | src/components/phases/EntryPhase.tsx:18-28 | while mounted, the stage and dispatches are always those of the schedule at the current time |
| EntryPhase.Entry.Teardown | src/components/phases/EntryPhase.tsx:30-34 | the cleanup clears all three timers, so nothing changes afterwards |
| SpeedTestPhase.StatusMessages | src/components/phases/SpeedTestPhase.tsx:51-60 | the five stages map to five different messages, idle to message 0, in stage order |
| SpeedTestPhase.GaugeFlags | src/components/phases/SpeedTestPhase.tsx:90-110 | a gauge is active iff the stage is its own metric, and complete iff the stage is later; never both, and at most one active |
| SpeedTestPhase.ResultEffectsShape | src/components/phases/SpeedTestPhase.tsx:29-35 | each completion yields SET_SPEED_RESULT and then SET_PHASE CALIBRATION, in that order |
| SpeedTestPhase.SpeedTestScreen.constructor | src/components/phases/SpeedTestPhase.tsx:26-45 | mounting arms the start timer at +1200 ms, not started |
| SpeedTestPhase.SpeedTestScreen.StartTimerFires | src/components/phases/SpeedTestPhase.tsx:40-48 | the start timer starts the test once: hasStarted is set, the hook runs from the timer's due time with the drawn targets and shows latency |
| SpeedTestPhase.SpeedTestScreen.Frame | src/components/phases/SpeedTestPhase.tsx:29-37 | a frame ticks the hook: with a frame requested the shown state is the tick's state at the elapsed time; below full progress the hook requests another frame and nothing is armed; at full progress the run stops and the 1800 ms result timer is armed with the rounded targets; with no frame requested nothing changes |
| SpeedTestPhase.SpeedTestScreen.ResultTimerFires | src/components/phases/SpeedTestPhase.tsx:31-34 | the result timer dispatches SET_SPEED_RESULT with the results, then SET_PHASE CALIBRATION |
| SpeedTestPhase.SpeedTestScreen.Teardown | src/components/phases/SpeedTestPhase.tsx:46 | unmounting clears only the start timer; a pending result timer still runs |
| SpeedTestPhase.AtMostOneResult | src/components/phases/SpeedTestPhase.tsx:29-48 | the test completes at most once, so the log is start, then at most one result and one CALIBRATION |
| CalibrationPhase.AfterGap | src/components/phases/CalibrationPhase.tsx:87-95 | after the gap, the next index is requested, or 'complete' follows the third |
| CalibrationPhase.SequenceOrder | src/components/phases/CalibrationPhase.tsx:18-38 | the permissions are microphone, motion, location, each once |
| CalibrationPhase.Calibration.constructor | src/components/phases/CalibrationPhase.tsx:45-55 | mounting shows the intro at index -1 and arms the 2500 ms timer |
| CalibrationPhase.Calibration.IntroTimerFires | src/components/phases/CalibrationPhase.tsx:50-58 | the intro timer moves to 'requesting' at index 0 |
| CalibrationPhase.Calibration.HandleGrant | src/components/phases/CalibrationPhase.tsx:69-96 | nothing outside [0, 3); otherwise the request is logged, a denial dispatches REJECTION, marks the denial and keeps the button disabled, and a grant adds the index to the grants, sets 'transitioning' and arms the 1500 ms gap |
| CalibrationPhase.Calibration.RecordDenial | src/components/phases/CalibrationPhase.tsx:77-80 | the denied branch: REJECTION is appended, the denial point is the end of the log, and nothing else changes |
| CalibrationPhase.Calibration.RecordGrant | src/components/phases/CalibrationPhase.tsx:83-95 | the granted branch: the index joins the grants, processing ends, the stage is 'transitioning' and one gap timer for this index is queued |
| CalibrationPhase.Calibration.PressGrant | src/components/phases/CalibrationPhase.tsx:169-176 | while the card's button is hidden or disabled a press changes nothing, grants and denial included; otherwise it has handleGrant's outcome: the request is logged, a denial dispatches REJECTION and keeps the button disabled, a grant adds the index to the grants and moves to the gap with its 1500 ms timer |
| CalibrationPhase.Calibration.GapTimerFires | src/components/phases/CalibrationPhase.tsx:87-95 | the oldest gap timer moves to the next index or to 'complete', and entering 'complete' arms the 1000 ms timer; after unmount it changes nothing but the queue; grants, denial, processing and the log stay |
| CalibrationPhase.Calibration.CompleteTimerFires | src/components/phases/CalibrationPhase.tsx:99-106 | the 'complete' timer dispatches VOICE_INTERFACE, and only after all three indices were granted by handleGrant; everything else stays |
| CalibrationPhase.NoRequestAfterDenial | src/components/phases/CalibrationPhase.tsx:77-80 | after a denial the REJECTION dispatch is the last request-related effect: no permission is requested again |
| CalibrationPhase.Calibration.Teardown | src/components/phases/CalibrationPhase.tsx:56-104 | unmounting clears the intro and 'complete' timers; the gap timers are left pending; stage, index, grants and denial stay |
| VoicePhase.AfterThinking | src/components/phases/VoicePhase.tsx:72-81 | after thinking, listening resumes iff another cycle is left, else 'complete' |
| VoicePhase.Timeline | src/components/phases/VoicePhase.tsx:61-90 | each state lasts its delay, and intro to ACCEPTANCE takes 2500 + 3 * (8000 + 4000) + 2000 = 40,500 ms |
| VoicePhase.Bar | src/components/phases/VoicePhase.tsx:47-49 | each waveform bar is at least 0.05 |
| VoicePhase.Voice.constructor | src/components/phases/VoicePhase.tsx:30-65 | mounting starts in intro with 24 zero bars, pushes the audio level, and arms the 2500 ms timer |
| VoicePhase.Voice.AudioLevelChanged | src/components/phases/VoicePhase.tsx:36-38 | a changed audio level is pushed with SET_AUDIO_LEVEL |
| VoicePhase.Voice.AnimationFrame | src/components/phases/VoicePhase.tsx:41-57 | while listening, a frame replaces all 24 bars with values of at least 0.05; otherwise nothing |
| VoicePhase.Voice.StateTimerFires | src/components/phases/VoicePhase.tsx:61-90 | intro goes to listening, listening to thinking with 24 zero bars, thinking to the next cycle or 'complete', and 'complete' dispatches SET_AUDIO_LEVEL 0, then ACCEPTANCE |
| VoicePhase.Voice.Teardown | src/components/phases/VoicePhase.tsx:89 | unmounting clears the state timer |
| VoicePhase.AcceptanceAfterAllCycles | src/components/phases/VoicePhase.tsx:61-90 | ACCEPTANCE is dispatched only after exactly three listening periods, 40,500 ms after mount |
| AcceptancePhase.UserDataEffects | src/components/phases/AcceptancePhase.tsx:28-31 | each submission dispatches SET_USER_DATA with its name and phone |
| AcceptancePhase.NoPhaseDispatched | src/components/phases/AcceptancePhase.tsx:16-31 | these dispatches never set a phase |
| AcceptancePhase.Acceptance.constructor | src/components/phases/AcceptancePhase.tsx:20 | the stage starts as 'reveal' |
| AcceptancePhase.Acceptance.RevealAnimationComplete | src/components/phases/AcceptancePhase.tsx:23-25 | the reveal animation's end arms the 1500 ms timer |
| AcceptancePhase.Acceptance.RevealTimerFires | src/components/phases/AcceptancePhase.tsx:24 | the timer moves reveal to form |
| AcceptancePhase.Acceptance.NameTyped | src/components/phases/AcceptancePhase.tsx:111 | in the form stage the name becomes the typed value, otherwise it stays; the phone, the submitting flag, the queued and delivered submissions, the stage and the log stay |
| AcceptancePhase.Acceptance.PhoneTyped | src/components/phases/AcceptancePhase.tsx:111 | in the form stage the phone becomes the formatted value, otherwise it stays; the name, the submitting flag, the submissions, the stage and the log stay |
| AcceptancePhase.Acceptance.SubmitPressed | src/components/phases/AcceptancePhase.tsx:111 | in the form stage with the button enabled the trimmed name and the phone as shown are queued and the form is submitting; otherwise nothing changes; name, phone, stage and log stay |
| AcceptancePhase.UserDataOnceAndValid | src/components/ui/PhoneInput.tsx:30-40 | the screen stores user data at most once, with a non-blank name and a phone of exactly ten digits |
| AcceptancePhase.Acceptance.FormTimerFires | src/components/phases/AcceptancePhase.tsx:28-31 | a delivered submission dispatches SET_USER_DATA and moves to farewell; stages only move forward |
| AcceptancePhase.AcceptanceIsFinal | src/components/phases/AcceptancePhase.tsx:16-31 | the acceptance screen never dispatches SET_PHASE |
| RejectionPhase.Rejection.RecordEffect | src/components/phases/RejectionPhase.tsx:22-27 | the rejection is recorded once, and only with a non-empty fingerprint |
| RejectionPhase.Rejection.constructor | src/components/phases/RejectionPhase.tsx:18-33 | mounting records the rejection if a fingerprint is known and arms the 3000 ms timer |
| RejectionPhase.Rejection.FingerprintChanged | src/components/phases/RejectionPhase.tsx:22-27 | a fingerprint that arrives later is recorded, at most once per mount |
| RejectionPhase.Rejection.SecondLineTimerFires | src/components/phases/RejectionPhase.tsx:30-33 | the timer shows the second line |
| RejectionPhase.Rejection.Teardown | src/components/phases/RejectionPhase.tsx:32 | unmounting clears the timer |
| RejectionPhase.RejectionIsTerminal | src/components/phases/RejectionPhase.tsx:16-33 | the screen writes at most one rejection and dispatches nothing; REJECTION is terminal |
| PhaseGraph.FlowMovesForward | src/types/index.ts:5-13 | every edge of the phase graph moves forward, and REJECTION and ACCEPTANCE have no successor |
| PhaseGraph.AllPhasesReachable | src/types/index.ts:5-13 | every phase is reachable from DEVICE_CHECK in at most six steps |
| PhaseGraph.ScreensFollowTheGraph | src/types/index.ts:5-13 | each of the seven phase screens dispatches only the phases that are its successors in the graph over the eight phases |
| PhaseGraph.RejectionBlocksReturn | src/components/phases/RejectionPhase.tsx:24 | a rejection written at a non-zero time blocks the device until the cooldown ends, so the check ends in 'blocked' |

## Left out

- Fingerprint collection (screen, navigator, Intl, WebGL) is not modelled. The fingerprint is an input, given as UTF-16 code units for the hash and as a string elsewhere.
- Browser storage and JSON are reduced to a storage status with a record map, plus a flag saying whether `setItem` succeeds. Serialisation is not modelled. A storage quota failure appears only as that flag.
- `Date.now`, `performance.now`, `Math.random` and the permission, audio and gyroscope browser APIs are not modelled. Their values are parameters.
- IEEE-754 rounding and `Float32Array` storage are not modelled; arithmetic is on `real`. `Math.round` is modelled exactly on reals, as `floor(x + 0.5)`.
- Node positions are abstract: the Fibonacci-sphere trigonometry and `Math.sqrt` are not modelled. Edge lengths come from a given metric, and the probe distance is a given input.
- Constellation.Advance: the closed form "seed + k * 0x6D2B79F5 mod 2^32" is not stated. Advance is k applications of the wrapping step on bv32, and its equality with the closed form on integers is not proved.
- Constellation.Mix: the mixing steps are written on bv32 as in the source. No property of the mixed bits is claimed beyond the [0, 1) bound.
- The three.js rendering layer is not modelled: nodes, filaments, shaders, the scene container, the error boundary, the breathing sine, the probe orbit and the gyroscope camera offset.
- The pure UI components, framer-motion animations and copy text are not modelled: GlowText, SpeedGauge, DesktopGate and the page layout. PermissionCard is modelled only as its button's disabled condition.
- `formatExpiry` is not modelled; it depends on the local time zone.
- The audio analyser is not modelled. The audio level is an input.
- useDeviceDetect's user-agent and touch test is not modelled. Its boolean answer is the input to Experience.Host.DeviceDetected.
- React scheduling is not modelled: re-renders, effect ordering and `requestAnimationFrame` become explicit events, and timers fire at their due times in the order they are called.
- SpeedTestPhase.SpeedTestScreen.StartTimerFires: the source re-arms the start timer whenever `speedTest` changes identity on a re-render before it fires. The model arms it once, on mount.
- The blocked outcome of the returning check follows the code: the device stays on RETURNING_CHECK. Nothing dispatches REJECTION for it.
- UseSpeedTest.CompleteShowsTargets: in the final hold, the display shows the targets rounded to one decimal, because `setState` rounds every value. It does not show the targets exactly.
- DeviceIdentity.RejectionRecord: `recordRejection` reads the clock twice, once for `rejectedAt` and once for a new `firstSeenAt`; the model uses one time for both, so it does not capture the two reads differing by a millisecond.
- CalibrationPhase.Calibration.HandleGrant: the permission request is awaited in the source, but the model resolves it at the press. Gap timers, the 'complete' timer and unmount cannot interleave with a pending request, so orders such as a late denial after a re-press during the gap, dispatching REJECTION after VOICE_INTERFACE or after unmount, are not captured.
- CalibrationPhase.Calibration.GapTimerFires: a gap timer queued before a denial still fires, as in the source, and can move the index on after the denial (Transitioning at index 0 with its gap timer pending, a second press denied, then the timer fires). What the model proves instead is CalibrationPhase.NoRequestAfterDenial: no permission is requested after a denial.
- CalibrationPhase.Calibration.HandleGrant requires that no request is in flight. Its only caller is the card's button (CalibrationPhase.Calibration.PressGrant), which is disabled while processing.
- Pressing grant again during the 1500 ms gap re-requests the same permission and queues a second gap timer, as the source does. The model keeps this behaviour rather than flagging it.
