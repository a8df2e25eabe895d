# LogiMate: a verified model of its stateful cores

LogiMate drives Logitech wheels: it shares one HID handle between readers and writers,
turns telemetry into motor bytes, keeps settings and executables safe across failures,
calibrates axes and listens to games over UDP. This project models those cores in Dafny and
proves what they are relied upon for: over every interleaving, every run, every pattern of
failures, or every input.

Code that changes fields step by step is modelled by classes whose methods are proved equal to
functions on plain state values; the laws about whole runs are lemmas about those functions.
Concurrent code is a transition system with one event for each critical section, channel
operation or system call. Stored state changes by atomic steps that may fail, with every
intermediate state on record, so that "at every stop point" is a statement about a history.

Live sessions run the scheduler of `internal/wheelengine`; the rows below cite its reference
twin in `internal/openg27port`. In everything modelled here (`WheelOutput`, `FFBEngine`,
resolving, encoding and the two reports) the two hold the same statements.

| module | what it models |
|---|---|
| `GoMath`, `GoText` | Go's truncating division, clamping, `math.RoundToEven` and `math.Round`; strings that byte limits and JSON can tell apart |
| `Optional`, `StopPoints` | a possibly missing value; histories of atomic steps |
| `SharedSession` | the G27 session: openers, read loops, invalidator, closer, recyclable handle numbers |
| `SafetyMixer` | profile and safety settings, `MixNativeEffects` |
| `ForceCore` | frame resolution, the motor byte, the lg4ff reports |
| `WheelOutputLayer` | `WheelOutput`: slew limit, watchdog, panic ramp |
| `ForceEngine` | `FFBEngine.PumpOnce` and runs of it |
| `EngineLifecycle` | `Start` and `Stop` against the pump goroutine |
| `ShapingPipeline` | the stateful signal shaping between game force and mixer |
| `GameOutput`, `LiveSession` | telemetry source to motor byte; whole sessions with the pipeline in the loop |
| `MirrorSymmetry` | inverting a game's force mirrors its whole session |
| `Withdrawal` | how a session falls silent once its game withdraws the authorisation |
| `ExeReplace`, `LogRotation` | executable replacement and rollback; log rotation |
| `ConfigIntegrity`, `MigrationJournal`, `AdvancedTuning` | corruption markers; migration records; per-wheel tuning |
| `InputNormalizers`, `LearnedCalibration` | production against reference normalizers; playback of learned calibrations |
| `UdpAdapterLayer` | the adapter's counters and bounded history |

## What the proofs found

The code is modelled as it is. Where an expected law fails of it, the model states exactly
when the law holds and shows a failing input.

- A constant target at distance d is not always reached after ceil(d / slew) calls: the 1e-9
  snap can save one (`ArrivalBeforeCeil`). The exact condition is in `FirstArrivalIsCeil`.
- `replaceExeTransactional` treats every failing Stat of the target as "no target" and then
  renames the new file over it. The old executable is lost exactly in that branch, unless the
  update or an earlier fallback that could not be removed has the same bytes
  (`OldSurvivesReplaceIff`; `LosingDisk` is a disk that loses it).
- After such an overwrite there is no fallback to name, so a following `rollbackExe` succeeds
  at once and leaves the new executable (`RollbackAfterBlindOverwrite`). A successful rollback
  after a successful replace restores the target exactly if that replace saw the old
  executable, or wrote the same bytes (`RollbackRestoresIff`).
- Over several calls the executable can be lost without any failing Stat: a call that can
  neither activate the new file nor undo itself leaves it at .previous only, and the next one
  removes that (`TwoCallsLose`). Over any run of calls the version in place is never lost
  exactly if every call is safe on the disk it finds (`NeverLostIff`).
- A staged file that is itself `target.new` is removed, or truncated, before it is read
  (`ReplaceSucceeds`).
- `BeginMigration` ignores an error of its listing: a directory or file that cannot be read,
  or a damaged journal, switches the guard against a second migration off; in a call that no
  other writer interrupts, nothing else does (`GuardFailsIff`).
- `RecoverInterruptedMigrations` drops the error of its second listing, and then reports
  success with unresolved records left (`RecoverySilentlyFails`). Its success means that
  nothing is left exactly if that listing could be read or every target check held
  (`RecoveryMeansNothingLeft`).
- Lowering a stored value can strengthen the output, because zero reads as a default: a
  profile master lowered to 0 from 1..74 reads as 75, and a safety master or limit lowered to 0
  or less from below its default reads as that default. `LoweringStoredMaster` and
  `LoweringStoredSetting` say of the mixer's outputs that these are the only cases,
  `LoweringStoredRate` of the slew limit and the watchdog. After normalisation, and for stored
  gains, the rule has no exception (`MixNeverAmplifies`, `LoweringStoredGains`).
- When a game withdraws its authorisation (a pause, a replay, its own force feedback off) the
  motor does not fall silent at once: the shaping filters still hold force, and the next frame
  can carry the full ceiling (`WithdrawalIsHeard`, one frame after `FullForceLoads`). A frame
  sends nothing exactly if the residual of the filters is mixed to nothing
  (`UnauthorisedSendsNothingIff`). With the low-pass off k frames scale the residual by exactly
  the k-th power of the smoothing (`SmoothingDrainsExactly`), so 51 frames always suffice
  (`FiftyOneFramesSilence`) and 50 do not (`FiftyFramesMaySpeak`). With the low-pass on 95 frames
  suffice if they are 4 ms apart, and the ramp to neutral follows
  (`WithdrawalReachesNeutral`); without that spacing no such number does much
  (`RushedFramesDrainLittle`).
- The neutral report that closes a panic is a jump if the transport refuses a ramp report too
  early; `PanicNeverJumps` says exactly when.
- A profile name is cut after it was trimmed, and normalising it again changes it exactly if
  the cut left white space at its end (`NameStableIff`, `CutNameEndsInSpace`).
- Production and reference pedals disagree for deadzones above 0.999999 on travels no byte
  calibration can produce (`PedalsAgreeIff`, `BytePedalsAgree`, `PedalsCanDiffer`).
- A preset name is cut to 64 bytes. That can split a character, which JSON then replaces and
  the next read cuts again, or leave only white space, which reads as the default name.
  `SaveThenRead` says exactly when a name survives, `SplitNameChanges` shows one that does not.
- A strict write that was not preceded by a strict read is stopped by the marker only
  (`BareWriteNeedsMarker`).
- After a timed-out UDP `Stop`, the next session's counters need not add up
  (`OrphanSpoilsCounters`); `CountersAddUpIff` gives the exact condition.

## Model

| member | source | states |
|---|---|---|
| SharedSession.Backoff | internal/system/g27_shared_hid_windows.go:212-230 | the delay before the next open attempt is always between 250 ms and 4 s, so the 5 s cap is never reached |
| SharedSession.BackoffDoubles | internal/system/g27_shared_hid_windows.go:212-230 | the delay starts at 250 ms, doubles with each further failure and stays at 4 s |
| SharedSession.G27Shared.constructor | internal/system/g27_shared_hid_windows.go:22-43 | a new record has no session, generation 0 and no sample |
| SharedSession.G27Shared.NoteOpenFailure | internal/system/g27_shared_hid_windows.go:212-230 | counts the failure, postpones the next open, leaves session and sample alone |
| SharedSession.G27Shared.Install | internal/system/g27_shared_hid_windows.go:276-304 | the new handle becomes current under the next generation without a sample, and exactly the previous open handle is handed out to be closed |
| SharedSession.G27Shared.InvalidateOutput | internal/system/g27_shared_hid_windows.go:331-358 | only the session named by path, handle and generation is detached, and only then is its handle claimed |
| SharedSession.G27Shared.ReadFailed | internal/system/g27_shared_hid_windows.go:401-427 | a failed read claims the handle exactly when its reader is still the current one |
| SharedSession.G27Shared.Publish | internal/system/g27_shared_hid_windows.go:428-461 | a superseded reader changes nothing; a current one stores its sample or counts the report as malformed |
| SharedSession.G27Shared.CloseInput | internal/system/g27_shared_hid_windows.go:855-879 | an open handle is claimed, the record is reset, the generation still rises |
| SharedSession.SessionsKept | internal/system/g27_shared_hid_windows.go:232-462 | every step of every thread keeps: open objects have distinct numbers, each is in exactly one place, and the claims and closes on record match |
| SharedSession.CloseHits | internal/system/g27_shared_hid_windows.go:300-302 | closing a claimed handle number ends the object it was claimed from, although numbers are reused |
| SharedSession.ReadersKept | internal/system/g27_shared_hid_windows.go:360-462 | every step keeps: a reader of the current generation reads the current session, and so did the published sample |
| SharedSession.InvReachable | internal/system/g27_shared_hid_windows.go:232-462 | both invariants hold in every reachable state of every interleaving |
| SharedSession.ClosedExactlyOnce | internal/system/g27_shared_hid_windows.go:276-304 | each opened object has been claimed exactly once if it is neither current nor with its opener, and never otherwise; it is closed at most once, only after its claim, and has been closed exactly when it is gone |
| SharedSession.CloseIsExact | internal/system/g27_shared_hid_windows.go:331-358 | an outstanding close can always be carried out and can only ever end the object it is owed to |
| SharedSession.NoLeak | internal/system/g27_shared_hid_windows.go:855-879 | with no close outstanding and no open under way, nothing but the current session is open |
| SharedSession.HandleChangeRaisesGeneration | internal/system/g27_shared_hid_windows.go:276-280 | generations never fall and rise with every change of handle or session |
| SharedSession.BorrowedHealthyIffInstalled | internal/system/g27_shared_hid_windows.go:309-327 | after any further run, a borrowed pair is healthy if and only if the very session it came from is still installed |
| SharedSession.SupersededNeverPublishes | internal/system/g27_shared_hid_windows.go:443-460 | a publish that changes anything is by the current session's reader with a report of that session |
| SharedSession.FoundSampleIsCurrent | internal/system/g27_shared_hid_windows.go:464-503 | a sample handed out as found stems from the session and generation installed now |
| SharedSession.PublishIsFound | internal/system/g27_shared_hid_windows.go:443-460 | a report that parses, published by a reader of the current generation, is the found sample at once; one that does not parse is counted and leaves the found sample alone |
| SharedSession.RecordIsHeard | internal/system/g27_shared_hid_windows.go:212-230 | over every run the found sample is that of the last report published under the present generation that parsed, or none if there was none, and malformed count, failure count and the time of the next try are those the events demand |
| SharedSession.ReadIsPublished | internal/system/g27_shared_hid_windows.go:428-461 | a report that is read is the one its reader publishes, and the reader goes on |
| SharedSession.OpensWhenDue | internal/system/g27_shared_hid_windows.go:249-260 | a path is asked for exactly if no session of it can be borrowed, and opened exactly if the delay after the last failure is over |
| SharedSession.HandleIffInstalled | internal/system/g27_shared_hid_windows.go:276-304 | a session is installed exactly while the record holds a handle that is neither zero nor invalid |
| SharedSession.CurrentIsAlwaysRead | internal/system/g27_shared_hid_windows.go:303-304 | in every reachable state the installed session has a read loop of its own generation |
| SharedSession.ReconnectsCounted | internal/system/g27_shared_hid_windows.go:282-286 | over every run the reconnect counter counts exactly the installs that follow another with no close of the input in between |
| SharedSession.ReconnectsFromStart | internal/system/g27_shared_hid_windows.go:282-286 | from the start of the program it counts the reopenings of the whole run |
| SafetyMixer.NormalizeRotationDegrees | internal/system/native_engine_profiles_windows.go:63-73 | the result is a supported angle nearest to the request, the smaller one on a tie |
| SafetyMixer.NearestRotationUnique | internal/system/native_engine_profiles_windows.go:63-73 | there is only one such angle, and supported angles are their own |
| SafetyMixer.NormalizeProfile | internal/system/native_engine_profiles_windows.go:75-90 | gains end in 0..100, the master in 1..100, the rotation at the nearest supported angle, a missing one at 900, the name as the next rows say |
| SafetyMixer.NameFacts | internal/system/native_engine_profiles_windows.go:52-61 | a normalised name is never empty, starts with no white space and has at most 48 bytes |
| SafetyMixer.NameStableIff | internal/system/native_engine_profiles_windows.go:52-61 | normalising it again changes it if and only if the cut left white space at its end |
| SafetyMixer.CutNameEndsInSpace | internal/system/native_engine_profiles_windows.go:52-61 | a name that does change |
| SafetyMixer.NormalizeConfig | internal/system/native_ffb_windows.go:98-146 | every limit ends within its hard range; constant force never above 10 percent |
| SafetyMixer.DeliveredOdd | internal/system/native_engine_profiles_windows.go:241-257 | the two nested truncating divisions commute with negation |
| SafetyMixer.DeliveredMonotone | internal/system/native_engine_profiles_windows.go:241-257 | they are monotone in the request |
| SafetyMixer.DeliveredShrinks | internal/system/native_engine_profiles_windows.go:241-257 | they never enlarge the clamped request and never flip its sign |
| SafetyMixer.DeliveredGainMonotone | internal/system/native_engine_profiles_windows.go:241-257 | lowering gain, master or safety master never raises the magnitude |
| SafetyMixer.DeliveredExtremes | internal/system/native_engine_profiles_windows.go:241-257 | full gains pass the clamped request on unchanged and a zero gain silences it |
| SafetyMixer.DeliveredAccurate | internal/system/native_engine_profiles_windows.go:241-257 | the two truncations lose less than two units of the exact product; negative requests follow by oddness |
| SafetyMixer.NormalisationIsStable | internal/system/native_ffb_windows.go:98-146 | rotations, gains and limits in range are left alone; normalising limits twice is normalising once, and for profiles so if and only if the cut name does not end in white space |
| SafetyMixer.MixOdd | internal/system/native_engine_profiles_windows.go:251-268 | negating the request negates the constant force and changes nothing else, clip count included |
| SafetyMixer.MixMonotone | internal/system/native_engine_profiles_windows.go:251-268 | a larger constant request never gives a smaller constant force |
| SafetyMixer.MixBounded | internal/system/native_engine_profiles_windows.go:251-268 | every output is within its clamped request and its safety limit; the constant force never opposes the request |
| SafetyMixer.MixChannels | internal/system/native_engine_profiles_windows.go:251-268 | each channel obeys its own gain and limit: silent at zero, the request up to the limit at full |
| SafetyMixer.MixNeverAmplifies | internal/system/native_engine_profiles_windows.go:251-268 | lowering any normalised gain, master or limit raises no output's magnitude |
| SafetyMixer.LoweringStoredGains | internal/system/native_engine_profiles_windows.go:251-268 | lowering stored gains never strengthens an output |
| SafetyMixer.LoweringStoredMaster | internal/system/native_engine_profiles_windows.go:75-90 | lowering a stored profile master strengthens no output of the mixer, for any request and settings, if and only if it is not lowered to 0 from 1..74 |
| SafetyMixer.LoweringStoredSetting | internal/system/native_ffb_windows.go:98-146 | the same for the stored safety master and each limit: if and only if a positive value below its default is not lowered to 0 or less |
| SafetyMixer.StoredSettingAmplifies | internal/system/native_ffb_windows.go:98-146 | in every excluded case a request whose output rises, with both outputs |
| SafetyMixer.LoweringStoredRate | internal/system/native_ffb_windows.go:117-144 | and for the stored slew limit and watchdog time, which do not reach the mixer |
| SafetyMixer.ZeroMasterAmplifies | internal/system/native_engine_profiles_windows.go:75-90 | at full gains a request of 4 gives 3 at stored master 0 and at most 2 at every stored master from 1 to 74 |
| SafetyMixer.NoClipMeansUncut | internal/system/native_engine_profiles_windows.go:251-268 | the clip counter is zero exactly when no limit cut anything |
| GoMath.RoundToEvenUnique | internal/openg27port/core.go:40-49 | half-even rounding is fixed by nearest-integer and even-on-tie alone |
| GoMath.TruncDivUnique | internal/system/native_engine_profiles_windows.go:241-249 | truncating division is fixed by its bounds for either sign |
| ForceCore.ResolveForceFrame | internal/openg27port/core.go:33-38 | the resolved torque lies in -1..1 for any frame and gain |
| ForceCore.ResolveIsScaledSum | internal/openg27port/core.go:33-38 | constant and transient force count alike, spring and damper not at all; their sum is scaled by the gain and cut at full scale |
| ForceCore.WheelByteIsRounding | internal/openg27port/core.go:40-49 | the byte is the rounded line through 128, always 1..255, so the byte clamp never acts |
| ForceCore.WheelByteMonotone | internal/openg27port/core.go:40-49 | more torque never gives a smaller byte |
| ForceCore.WheelByteReflects | internal/openg27port/core.go:40-49 | the bytes of t and -t sum to 256 |
| ForceCore.WheelByteLipschitz | internal/openg27port/core.go:40-49 | bytes differ by at most 127 times the torque difference plus one |
| ForceCore.WheelByteNeutral | internal/openg27port/core.go:40-49 | the byte is neutral exactly for torques within half a byte step of zero |
| ForceCore.ReportsDistinct | internal/openg27port/lg4ff.go:11-20 | a constant-force report determines its byte and is never a stop report |
| ForceCore.ReportsAsSent | internal/openg27port/lg4ff.go:11-20 | the seven bytes of the two reports |
| WheelOutputLayer.WheelOutput.constructor | internal/openg27port/scheduler.go:79-95 | a new output has no force, no counts, and a running heartbeat |
| WheelOutputLayer.WheelOutput.StepTowardLocked | internal/openg27port/scheduler.go:115-128 | the imperative step equals the step function and counts a limited step |
| WheelOutputLayer.WheelOutput.WriteLocked | internal/openg27port/scheduler.go:194-204 | each write is attempted once, counted whether or not it is accepted, and its failure is remembered |
| WheelOutputLayer.WheelOutput.SetForce | internal/openg27port/scheduler.go:130-138 | one limited step, one heartbeat, one report of the new force |
| WheelOutputLayer.WheelOutput.Tick | internal/openg27port/scheduler.go:140-150 | past the watchdog the force is dropped and a trip is counted if there was one; one report |
| WheelOutputLayer.WheelOutput.RampLocked | internal/openg27port/scheduler.go:157-170 | the ramp loop terminates for every positive slew and every pattern of refusals, equals the ramp function, and fails exactly if a report was refused |
| WheelOutputLayer.WheelOutput.Panic | internal/openg27port/scheduler.go:154-174 | stop, ramp and neutral, whatever is refused; success means every report was accepted |
| WheelOutputLayer.StepStaysBetween | internal/openg27port/scheduler.go:115-128 | a step never overshoots the clamped target nor backs away from it |
| WheelOutputLayer.StepWithinSlew | internal/openg27port/scheduler.go:115-138 | one step moves the force by less than slew + 1e-9 and the byte by at most 127 times that plus one |
| WheelOutputLayer.LimitedIff | internal/openg27port/scheduler.go:115-128 | a step counts as limited exactly if it does not arrive, or arrives by the 1e-9 snap from more than 1e-12 beyond the slew limit |
| WheelOutputLayer.RunWithinSlew | internal/openg27port/scheduler.go:115-138 | k calls with any torques move the force by at most k (slew + 1e-9) and keep it in -1..1 |
| WheelOutputLayer.ConstantTorqueRun | internal/openg27port/scheduler.go:115-138 | under one torque the distance falls by exactly one slew limit a call until the target is hit exactly |
| WheelOutputLayer.ReachedIff | internal/openg27port/scheduler.go:115-138 | the k-th call has arrived if and only if k slew limits and the snap cover the distance; then it stays |
| WheelOutputLayer.FirstArrivalIsCeil | internal/openg27port/scheduler.go:115-138 | the first arrival is call ceil(d / slew) if and only if the last partial step is at least the snap distance or is the only one |
| WheelOutputLayer.ArrivalBeforeCeil | internal/openg27port/scheduler.go:115-138 | a concrete target reached one call before ceil(d / slew) |
| WheelOutputLayer.PanicReports | internal/openg27port/scheduler.go:154-174 | for every pattern of refusals Panic attempts stop first, then at most 100000 ramp reports, then neutral, and leaves force 0 |
| WheelOutputLayer.RampIsSmooth | internal/openg27port/scheduler.go:157-170 | the ramp heads monotonically to neutral and no two successive forces differ by more than the slew limit and snap |
| WheelOutputLayer.RampEnd | internal/openg27port/scheduler.go:157-170 | a ramp ends at neutral, or short of it by exactly what the steps up to the first refusal, at most 100000, do not cover |
| WheelOutputLayer.PanicNeverJumps | internal/openg27port/scheduler.go:154-174 | for every pattern of refusals the closing neutral report is no jump if and only if the steps up to the first refused ramp report, and one more, cover the way to neutral; with none refused these are 100001, and a slew of 1e-5 suffices |
| ForceEngine.FFBEngine.constructor | internal/openg27port/scheduler.go:234-239 | a new engine has gain 1 and no counts |
| ForceEngine.FFBEngine.SetMasterGain | internal/openg27port/scheduler.go:247-254 | the gain used by later pumps |
| ForceEngine.FFBEngine.PumpOnce | internal/openg27port/scheduler.go:256-290 | at most one SetForce and always one Tick; it fails exactly if one of their writes was refused |
| ForceEngine.PumpRunWrites | internal/openg27port/scheduler.go:256-290 | over any pure pump run the reports attempted, and the write counter, grow by pumps plus source frames |
| ForceEngine.ForceHasSource | internal/openg27port/scheduler.go:256-290 | any force left after a run was put there by the SetForce the heartbeat records |
| ForceEngine.DeadMansRule | internal/openg27port/scheduler.go:140-150 | with a monotone clock, a Tick reports other than neutral only if some SetForce happened within the watchdog time before it |
| ForceEngine.StallTripsOnce | internal/openg27port/scheduler.go:140-150 | a stall of any length adds one trip if it outlasts the watchdog with force applied, none otherwise, and drops the force exactly when it outlasts it |
| ForceEngine.PumpRunFollowsSlew | internal/openg27port/scheduler.go:256-290 | a pump run without a trip ends with the force of its bare torques, and each of its reports is within one slew limit, in bytes, of the one before |
| EngineLifecycle.LifecycleRecord.StartLocked | internal/openg27port/scheduler.go:294-313 | a stopped engine gets fresh channels, a running one is left alone |
| EngineLifecycle.LifecycleRecord.StopLocked | internal/openg27port/scheduler.go:327-341 | the cancel channel is taken out of the record before it is closed |
| EngineLifecycle.InvKept | internal/openg27port/scheduler.go:294-348 | every event of caller or goroutine keeps the channel and goroutine accounts |
| EngineLifecycle.ClosedAtMostOnce | internal/openg27port/scheduler.go:327-341 | in every interleaving each cancel channel is closed at most once, the running one never, and at most one pump goroutine is alive |
| EngineLifecycle.StopLeavesNeutral | internal/openg27port/scheduler.go:327-348 | whenever Stop returns, the last report attempted is neutral, no force is left and no goroutine is alive |
| EngineLifecycle.QuietAfterStop | internal/openg27port/scheduler.go:327-348 | after Stop has returned nothing is written until the next call: Start, Stop or, before any Start, a direct pump |
| EngineLifecycle.StopCanFinish | internal/openg27port/scheduler.go:306-325 | a waiting Stop is at most five events from returning |
| GameOutput.TelemetrySource.constructor | internal/system/fusion_c6_windows.go:167-181 | a new source is active with nothing applied |
| GameOutput.TelemetrySource.RefreshTuning | internal/system/fusion_c6_windows.go:100-114 | a live swap replaces the engine profile and restarts the pipeline with the new tuning; without a pipeline it fails |
| GameOutput.TelemetrySource.TryGetFrame | internal/system/fusion_c6_windows.go:183-224 | the frame is the mixed one of the snapshot and the pipeline's answer, and all records are those of that mix; a refused snapshot changes nothing, the filters included |
| GameOutput.FrameWithinCeiling | internal/system/fusion_c6_windows.go:183-224 | whatever the pipeline answers, a frame is within the wheel's constant limit, and there is one exactly if the source is active with force feedback and the snapshot running, fresh, from its adapter and filled |
| GameOutput.BitsDecideForce | internal/system/fusion_c6_windows.go:197-205 | the force asked for is zero exactly if physics, player control or a demanded force-feedback bit is off, or there is none; with all granted it is the snapshot's own, in the game's direction |
| GameOutput.GameGainIsProduct | internal/system/fusion_c6_windows.go:206-208 | the game's gain is the product of its three percentages |
| GameOutput.PumpUnderTop | internal/openg27port/scheduler.go:256-290 | a pump with a bounded frame and gain keeps force and reports under the scaled ceiling |
| GameOutput.PanicUnderTop | internal/openg27port/scheduler.go:154-174 | so does a panic |
| GameOutput.MotorCeiling | internal/system/fusion_c6_windows.go:183-224 | for every sequence of telemetry, pipeline answers, profile swaps, refusals and panics, with gains within -1..1, every force byte lies between the half-even roundings of 128 - 1.27 L and 128 + 1.27 L |
| GameOutput.MotorCeilingForGains | internal/openg27port/core.go:33-38 | for gains up to any bound G every byte lies between the half-even roundings of 128 - 1.27 L G and 128 + 1.27 L G, or full scale |
| GameOutput.GainCeilingIff | internal/openg27port/core.go:33-38 | a gain keeps all frames under the ceiling of gain 1 if and only if its scaled ceiling rounds to no larger a byte |
| GameOutput.AbsoluteCeiling | internal/system/native_ffb_windows.go:98-146 | whatever is stored, no byte leaves 115..141 |
| GameOutput.LivePanicNeverJumps | internal/system/fusion_c3_windows.go:87-95 | the conversion keeps the configured rate per millisecond exactly; a panic of a live session ends without a jump if its first 333 ramp reports are taken, and otherwise exactly under the condition above |
| MirrorSymmetry.StepMirrors | internal/openg27port/scheduler.go:115-128 | the slew step, its snap and its limit test commute with negation |
| MirrorSymmetry.PanicMirrors | internal/openg27port/scheduler.go:154-174 | mirrored outputs panic in mirrored reports |
| ShapingPipeline.NormalizeTuning | internal/wheelengine/ffb_pipeline.go:39-75 | every tuning ends in range, and one in range is left as it is |
| ShapingPipeline.StoredTuningUnaltered | internal/system/advanced_ffb_windows.go:169-182 | the stored per-wheel settings reach the pipeline unaltered, or as the disabled default |
| ShapingPipeline.FFBPipeline.constructor | internal/wheelengine/ffb_pipeline.go:110-120 | a new pipeline has empty filters and a tuning in range |
| ShapingPipeline.FFBPipeline.SetTuning | internal/wheelengine/ffb_pipeline.go:122-137 | new settings start with empty filters and counters |
| ShapingPipeline.FFBPipeline.ProcessFrame | internal/wheelengine/ffb_pipeline.go:161-229 | one frame changes filters and counters and is answered as the stages say |
| ShapingPipeline.ForcedIsMagnitude | internal/wheelengine/ffb_pipeline.go:181-202 | deadband, curve and minimum force act on the magnitude and keep the sign |
| ShapingPipeline.MagnitudeOrder | internal/wheelengine/ffb_pipeline.go:181-202 | together they are monotone, map nothing to nothing and full scale to full scale |
| ShapingPipeline.FiltersBetween | internal/wheelengine/ffb_pipeline.go:204-219 | neither filter overshoots what it remembers and what it is given |
| ShapingPipeline.ProcessedOdd | internal/wheelengine/ffb_pipeline.go:161-229 | from opposite memories the opposite force gives the opposite answer, memories included, and the same counters |
| ShapingPipeline.ProcessedMonotone | internal/wheelengine/ffb_pipeline.go:161-229 | from any memories more force never comes out as less |
| ShapingPipeline.ProcessedBounded | internal/wheelengine/ffb_pipeline.go:161-229 | no answer exceeds the output limit, or what the filters remember and the frame asks for |
| ShapingPipeline.SilenceDecays | internal/wheelengine/ffb_pipeline.go:204-219 | in one silent frame the low-pass memory shrinks or is dropped, and the answer never exceeds the larger memory; filters at rest answer nothing |
| ShapingPipeline.FullScalePreserved | internal/wheelengine/ffb_pipeline.go:181-223 | without filters a full request gives exactly the output limit, and one in the deadband nothing |
| ShapingPipeline.RawForceIsLinear | internal/wheelengine/ffb_pipeline.go:171-172 | the raw force is linear in frame and gain; a unit of constant force weighs the constant gain, of transient force the transient gain, spring and damper nothing |
| ShapingPipeline.AlphaWeighs | internal/wheelengine/ffb_pipeline.go:205-213 | a sample weighs as in a first-order filter of the given cutoff, over the time since the last one or a tick of a 150th of a second |
| ShapingPipeline.NeutralPassesThrough | internal/wheelengine/ffb_pipeline.go:25-37 | the neutral settings of a wheel are the neutral tuning, and that, or a disabled one, passes every force on, only clamped |
| ShapingPipeline.MissingEntryIsNeutral | internal/system/advanced_ffb_windows.go:45-54 | a wheel without stored settings is shaped neutrally |
| ShapingPipeline.StoredSettingsAct | internal/system/advanced_ffb_windows.go:169-182 | each stored percentage acts as itself: no answer within the deadband, at least the minimum force beyond it, in its direction, never more than the output limit |
| ShapingPipeline.ExponentShapes | internal/wheelengine/ffb_pipeline.go:192-195 | a response exponent above 1 gives strictly less between deadband and full scale, one below 1 strictly more |
| LiveSession.NeutralShapingIsNone | internal/system/fusion_c6_windows.go:209-214 | with neutral or disabled shaping a session sends what it would without a pipeline |
| LiveSession.LiveMotorCeiling | internal/system/fusion_c6_windows.go:183-224 | the motor ceiling with the pipeline in the loop, for every live session and filter state |
| LiveSession.LiveSessionMirrors | internal/system/fusion_c6_windows.go:199-201 | inverting a game's force direction reflects every force byte of every live session about neutral and changes no counter, heartbeat or trip |
| LiveSession.LiveFrameFollowsTelemetry | internal/system/fusion_c6_windows.go:199-222 | from any filter state more telemetry force never gives less motor force to that side, in either game direction |
| Withdrawal.LiveInvHolds | internal/wheelengine/ffb_pipeline.go:161-229 | over every live session the filters hold nothing before their first frame or while disabled, and nothing beyond full scale and the output limit |
| Withdrawal.UnauthorisedSendsNothingIff | internal/system/fusion_c6_windows.go:194-222 | an accepted snapshot whose own bits withhold the authorisation sends no force if and only if the residual of the filters is mixed to nothing, said as arithmetic on gains and masters |
| Withdrawal.MixedToNothingIff | internal/system/native_engine_profiles_windows.go:241-257 | a nominal request is mixed to nothing if and only if its magnitude does not survive the two truncating divisions |
| Withdrawal.FullForceLoads | internal/wheelengine/ffb_pipeline.go:161-229 | one frame of full force loads the heaviest filters |
| Withdrawal.WithdrawalIsHeard | internal/system/fusion_c6_windows.go:194-222 | the next snapshot, paused and authorising nothing, still sends the full ceiling |
| Withdrawal.SmoothingDrainsExactly | internal/wheelengine/ffb_pipeline.go:204-219 | with the low-pass off k silent frames multiply the answer by exactly the k-th power of the smoothing |
| Withdrawal.FiftyOneFramesSilence | internal/wheelengine/ffb_pipeline.go:204-219 | for every tuning without low-pass, any filters and any gains, the 51st and every later silent frame sends nothing |
| Withdrawal.FiftyFramesMaySpeak | internal/wheelengine/ffb_pipeline.go:204-219 | the 50th can still send a percent |
| Withdrawal.FiltersDrain | internal/wheelengine/ffb_pipeline.go:204-219 | with the low-pass on and frames 4 ms apart, k silent frames leave at most 0.9^k in it and (k + 1) 0.9^k in the answer, whatever is swapped in between |
| Withdrawal.RushedFramesDrainLittle | internal/wheelengine/ffb_pipeline.go:204-214 | frames a nanosecond apart drain less than 0.00000004 of full force each |
| Withdrawal.WithdrawalReachesNeutral | internal/system/fusion_c6_windows.go:183-224 | after 95 unauthorised snapshots n more bring the motor to neutral, where n slew limits cover the ceiling, through panics, refused snapshots and live swaps |
| Withdrawal.QuietOnceDrained | internal/system/fusion_c6_windows.go:194-198 | from then on, while nothing is authorised, every report is neutral or stop |
| Withdrawal.QuietWhileUnauthorised | internal/system/fusion_c6_windows.go:194-198 | a session with filters and motor at rest stays so while nothing is authorised, at any frame spacing: every report is neutral or stop |
| ExeReplace.RecordedDisk.StageNew | internal/app/update_helper_windows.go:179-187 | copying beside the target takes exactly the recorded steps |
| ExeReplace.RecordedDisk.ActivateNew | internal/app/update_helper_windows.go:188-206 | the renames, with their undoing on failure, take exactly the recorded steps |
| ExeReplace.RecordedDisk.ReplaceExeTransactional | internal/app/update_helper_windows.go:179-206 | the call takes exactly the recorded steps and returns whether an old executable was kept |
| ExeReplace.RecordedDisk.RollbackExe | internal/app/update_helper_windows.go:208-225 | so does rolling back |
| ExeReplace.OldSurvivesStage | internal/app/update_helper_windows.go:179-187 | while the new file is copied the old executable stays at target in every state |
| ExeReplace.OldSurvivesReplaceIff | internal/app/update_helper_windows.go:179-206 | under every combination of failures the old bytes are at target or target.previous at every stop point, if and only if no failing Stat lets the new file be renamed over them, or the update or an unremovable fallback has the same bytes |
| ExeReplace.BlindOverwriteOutcome | internal/app/update_helper_windows.go:188-206 | in that branch the call reports success, with the new file at target and the fallback as staging left it |
| ExeReplace.LosingDisk | internal/app/update_helper_windows.go:188-206 | one disk on which a failing Stat costs the old executable and its older fallback |
| ExeReplace.StrandedSurvivesIff | internal/app/update_helper_windows.go:179-206 | with the executable at .previous only, a call keeps it if and only if its copy fails or .previous cannot be removed |
| ExeReplace.NeverLostIff | internal/app/update_helper_windows.go:179-206 | over any run of calls the version in place is findable at every stop point if and only if every call is safe on the disk it finds |
| ExeReplace.TwoCallsLose | internal/app/update_helper_windows.go:179-206 | two calls that lose it although no Stat fails |
| ExeReplace.ReplaceSucceeds | internal/app/update_helper_windows.go:179-206 | success leaves the old bytes at previous and the new ones at target, unless the staged file was target.new itself |
| ExeReplace.ReplaceFails | internal/app/update_helper_windows.go:188-206 | a failed replace leaves the old executable at target, or at previous if even renaming it back failed |
| ExeReplace.ReplaceSucceedsIff | internal/app/update_helper_windows.go:179-206 | a replace succeeds if and only if the copy completes, an old executable that is seen steps aside and the new one takes its name |
| ExeReplace.RollbackOutcome | internal/app/update_helper_windows.go:208-225 | a rollback succeeds if and only if there is nothing to roll back, or the fallback is there and can be renamed; then it is at target, and otherwise kept |
| ExeReplace.OldSurvivesRollback | internal/app/update_helper_windows.go:208-225 | a rollback keeps the old executable findable at every stop point |
| ExeReplace.RollbackRestoresIff | internal/app/update_helper_windows.go:202-225 | a successful rollback after any successful replace restores what was at target, or not there, if and only if the replace saw the old executable or wrote the same bytes |
| ExeReplace.RollbackAfterBlindOverwrite | internal/app/update_helper_windows.go:202-211 | after a blind overwrite rollback succeeds at once and leaves the new bytes |
| LogRotation.LogFiles.RotateLogFile | internal/app/update_helper_windows.go:130-143 | the descending loop computes the rotation, and only logs at or above the size limit are rotated |
| LogRotation.RotationShifts | internal/app/update_helper_windows.go:130-143 | when no step fails, for any keep and any missing files slot i + 1 ends with the old slot i, slot 1 with the log, the oldest is gone, higher slots are untouched |
| LogRotation.RotationKeepsLog | internal/app/update_helper_windows.go:130-143 | whatever fails, the log itself is not lost and slots above keep are untouched |
| LogRotation.KeptSlotsAreLatest | internal/app/update_helper_windows.go:130-143 | after any number of rotations in which no step fails the kept slots hold the most recent logs, newest first |
| ConfigIntegrity.ConfigStore.PreserveCorruptConfig | internal/system/config_integrity_windows.go:22-43 | backup first, marker second, stopping at the first failure |
| ConfigIntegrity.ConfigStore.ReadJSONConfigStrict | internal/system/config_integrity_windows.go:62-78 | missing, unreadable, corrupt and loaded are told apart; only corrupt bytes are preserved |
| ConfigIntegrity.ConfigStore.WriteJSONConfigStrict | internal/system/config_integrity_windows.go:80-89 | a marked file, or a failing Stat of the marker, refuses the write |
| ConfigIntegrity.ConfigStore.ResetJSONConfig | internal/system/config_integrity_windows.go:91-100 | new contents first, marker removal second |
| ConfigIntegrity.OpKeepsMarkers | internal/system/config_integrity_windows.go:22-100 | every stop point of every operation keeps each marker backed by bytes its file held in an earlier state and could not be read from |
| ConfigIntegrity.MarkersAlwaysSound | internal/system/config_integrity_windows.go:22-100 | in every run, with failures and crashes anywhere, each marker announces a backup of exactly the unreadable bytes its file held at some earlier point, and no backup ever changes |
| ConfigIntegrity.PreservedExactly | internal/system/config_integrity_windows.go:22-78 | a read of unreadable bytes leaves the file alone and, if nothing fails, marks it with a backup of exactly those bytes |
| ConfigIntegrity.PreservesIff | internal/system/config_integrity_windows.go:22-43 | preserving succeeds if and only if nothing fails, and then backup and marker are there |
| ConfigIntegrity.ReadTells | internal/system/config_integrity_windows.go:62-78 | absent if and only if there is no file, loaded with exactly the bytes it holds if and only if it can be read and parsed, unreadable and corrupt accordingly; only a corrupt read takes steps |
| ConfigIntegrity.WriteThenRead | internal/system/config_integrity_windows.go:62-100 | what was written, or reset to, successfully is what the next read returns |
| ConfigIntegrity.WriteGetsThroughIff | internal/system/config_integrity_windows.go:80-100 | exactly when writes and resets get through, and that a refused one changes nothing |
| ConfigIntegrity.SaveGetsThroughIff | internal/system/advanced_ffb_windows.go:134-167 | exactly when a save gets through; it leaves the update of the very bytes the file held, or of nothing only where no file was |
| ConfigIntegrity.MarkedFileIsFrozen | internal/system/config_integrity_windows.go:45-52 | while marked, no write or save changes a file; only a reset that got through removes the marker |
| ConfigIntegrity.OtherFilesKept | internal/system/config_integrity_windows.go:62-100 | no operation touches another configuration file or its marker |
| ConfigIntegrity.HalfResetStaysBlocked | internal/system/config_integrity_windows.go:91-100 | a reset stopped between its steps still blocks writes |
| ConfigIntegrity.SaverSparesUnreadable | internal/system/advanced_ffb_windows.go:134-167 | a saver never overwrites bytes it could not parse, even if preserving them failed |
| MigrationJournal.JournalDir.WriteMigration | internal/system/migration_journal_windows.go:58-64 | one record is replaced whole, or nothing changes |
| MigrationJournal.JournalDir.EditMigration | internal/system/migration_journal_windows.go:99-183 | load, rewrite, write back; any failure changes nothing |
| MigrationJournal.EditsDo | internal/system/migration_journal_windows.go:99-183 | exactly when an edit gets through, and what each of the four makes of every field of the record |
| MigrationJournal.BegunIsPending | internal/system/migration_journal_windows.go:70-73 | a new record is pending, for its action, without steps or outcome |
| MigrationJournal.CleanedExactly | internal/system/migration_journal_windows.go:259-282 | the clean-up deletes exactly the completed records it finds old and can remove |
| MigrationJournal.JournalDir.ListIncompleteMigrations | internal/system/migration_journal_windows.go:185-212 | exactly the unresolved records, oldest first, or nothing if the directory, a file or a journal cannot be read |
| MigrationJournal.SortByStart | internal/system/migration_journal_windows.go:210-210 | a sorted arrangement of the same records |
| MigrationJournal.UnresolvedOfSound | internal/system/migration_journal_windows.go:185-212 | a listed record is unresolved and on disk, and every unresolved one is listed |
| MigrationJournal.JournalDir.BeginMigration | internal/system/migration_journal_windows.go:66-82 | succeeds exactly if the write works and the listing failed or showed nothing unresolved; then one pending record is added and only old completed ones are cleaned away; the steps it takes are a run of the journal |
| MigrationJournal.JournalDir.CleanupOldMigrations | internal/system/migration_journal_windows.go:259-282 | deletes completed records only |
| MigrationJournal.JournalDir.CloseSatisfied | internal/system/migration_journal_windows.go:235-250 | up to a failing write, closes exactly the records whose target check held; it gets through exactly if each of those can be written |
| MigrationJournal.JournalDir.RecoverInterruptedMigrations | internal/system/migration_journal_windows.go:235-257 | no error exactly if the first listing can be read, every satisfied unresolved record can be written, and the second listing fails or shows nothing; then, and whenever only the second listing objects, exactly the satisfied records are closed; the steps are a run of the journal |
| MigrationJournal.RecoveryMeansNothingLeft | internal/system/migration_journal_windows.go:253-257 | no error means that nothing unresolved is left if and only if the second listing could be read or every check held |
| MigrationJournal.RecoverySilentlyFails | internal/system/migration_journal_windows.go:253-257 | a recovery that reports success with a record left, its second listing having failed |
| MigrationJournal.RecoveredLeaves | internal/system/migration_journal_windows.go:235-257 | recovery leaves exactly the unresolved records whose check failed; a closed one keeps its steps |
| MigrationJournal.StepKeeps | internal/system/migration_journal_windows.go:99-183 | every durable step only evolves records and removes only completed ones |
| MigrationJournal.JournalHistory | internal/system/migration_journal_windows.go:99-183 | over every run completed never reverts, steps are only appended and frozen on completion, success implies completed without error, and final statuses agree with the flags |
| MigrationJournal.StepsAreThoseAppended | internal/system/migration_journal_windows.go:130-143 | over every run a record's steps are exactly those appended while it could be written and was not completed, in order |
| MigrationJournal.UncompletedNeverRemoved | internal/system/migration_journal_windows.go:259-282 | a record that is not completed is never removed, over any run |
| MigrationJournal.OneMigrationInFlight | internal/system/migration_journal_windows.go:66-82 | with readable journals and listings that work at most one migration is unresolved at any time, and exactly the completed ones have a final status |
| MigrationJournal.GuardFailsIff | internal/system/migration_journal_windows.go:66-82 | beside an unresolved record Begin is let through if and only if the listing failed or some journal is damaged, and then two are in flight |
| AdvancedTuning.Normalize | internal/system/advanced_ffb_windows.go:73-103 | every setting ends in its documented range; a low-pass of 0 stays off |
| AdvancedTuning.InRangeUntouched | internal/system/advanced_ffb_windows.go:73-103 | settings already in range are left exactly as they are |
| AdvancedTuning.NormalizeIsNearest | internal/system/advanced_ffb_windows.go:73-103 | any other setting moves to the nearest value of its range; zero exponent and limit read as their defaults |
| AdvancedTuning.TuningStore.SaveAdvancedFFBConfig | internal/system/advanced_ffb_windows.go:134-167 | succeeds exactly for a wheel id, a readable file of a known schema and a working write, and otherwise changes nothing |
| AdvancedTuning.TuningStore.MigrateSiblings | internal/system/advanced_ffb_windows.go:148-162 | the loop over the wheel map fills in the zero gains of every entry, in whatever order |
| AdvancedTuning.SaveKeepsOthers | internal/system/advanced_ffb_windows.go:116-167 | saving one wheel changes no other wheel's effective settings, also across the schema migration |
| GoText.CutIsPrefix | internal/system/advanced_ffb_windows.go:99-101 | cutting a text is cutting its bytes, wherever that splits a character |
| GoText.RecutIff | internal/system/advanced_ffb_windows.go:99-101 | storing a cut text and cutting it again changes nothing exactly if it has no stray bytes but the ones a cut replacement character leaves |
| AdvancedTuning.SaveThenRead | internal/system/advanced_ffb_windows.go:73-167 | a save reads back as the normalised settings if and only if its cut name is intact and not white space left of another name; nothing but the name is ever affected |
| AdvancedTuning.SaveThenReadAscii | internal/system/advanced_ffb_windows.go:73-167 | for ASCII names the white space is the only exception |
| AdvancedTuning.SplitNameChanges | internal/system/advanced_ffb_windows.go:99-101 | a name of 63 letters and an accented one comes back changed |
| AdvancedTuning.ZeroGainMeaning | internal/system/advanced_ffb_windows.go:56-71 | for both gains a stored zero means 100 in a schema 1 file and 0 in any other; everything else reads as stored, normalised |
| AdvancedTuning.OwnSavesDecide | internal/system/advanced_ffb_windows.go:116-167 | over any sequence of saves a wheel's settings, names apart, are those of its own last save |
| InputNormalizers.SteeringAgrees | internal/system/native_input_defaults_windows.go:42-69 | production and reference steering agree for every raw value, calibration and deadzone |
| InputNormalizers.SteeringIsPosition | internal/system/native_input_defaults_windows.go:42-69 | with Center between the ends, steering is the clamped position along Left to Right outside the deadzone |
| InputNormalizers.SteeringMonotone | internal/system/native_input_defaults_windows.go:42-69 | steering is monotone from Left to Right in either orientation |
| InputNormalizers.SteeringEnds | internal/system/native_input_defaults_windows.go:42-69 | Left, Center and Right map to -1, 0 and 1 |
| InputNormalizers.SteeringProportion | internal/system/native_input_defaults_windows.go:42-69 | between its ends and outside the deadzone steering is in proportion to the raw way, and zero exactly within the deadzone |
| InputNormalizers.SteeringAxisFaithful | internal/system/native_input_defaults_windows.go:116-124 | on the 16-bit axis: 0, 32768 and 65535, monotone in between, the same through the reference |
| InputNormalizers.Norm01ToAxis | internal/system/native_input_defaults_windows.go:106-114 | the result fits sixteen bits for every input |
| InputNormalizers.AxisIsNearest | internal/system/native_input_defaults_windows.go:106-124 | both axis values are the nearest to the scaled position, a tie going up |
| InputNormalizers.SensitivityActs | internal/system/native_input_defaults_windows.go:71-104 | what the deadzone leaves of the pedal's way is in proportion; a sensitivity above 1 makes strictly less of it, one below 1 strictly more, 1 and anything not positive nothing |
| InputNormalizers.PedalAxisFaithful | internal/system/native_input_defaults_windows.go:71-114 | pedals reach the 16-bit axis with 0 at rest, 65535 when pressed, monotone, for every deadzone, sensitivity and direction |
| InputNormalizers.PedalsAgreeIff | internal/system/native_input_defaults_windows.go:71-104 | production and reference pedals agree if and only if the deadzone is at most 0.999999 or the travel avoids the top sliver |
| InputNormalizers.BytePedalsAgree | internal/openg27port/core.go:147-169 | calibrations with byte ends always agree |
| InputNormalizers.PedalsCanDiffer | internal/openg27port/core.go:147-169 | an input on which they differ |
| LearnedCalibration.ShareIsPosition | internal/system/input_profiles_windows.go:257-284 | playback of a learned steering calibration is the clamped position of the native normalizer |
| LearnedCalibration.SteeringPlaysBack | internal/system/input_profiles_windows.go:138-163 | any accepted calibration maps Left, Center, Right to -R/2, 0, R/2, stays within, and is monotone in both orientations |
| LearnedCalibration.SaveAcceptsIff | internal/system/input_profiles_windows.go:138-163 | a calibration is accepted if and only if its range is 40 to 1080 degrees and Center lies between the ends, at least 512 from each |
| LearnedCalibration.ShareProportion | internal/system/input_profiles_windows.go:257-284 | between the ends playback is in proportion to the raw way |
| LearnedCalibration.PercentIsPressedness | internal/app/input_learning_windows.go:289-295 | inversion undoes the sorting of the ends: playback depends on the share of the way from rest to pressed only |
| LearnedCalibration.PedalPlaysBack | internal/system/input_profiles_windows.go:318-366 | any captured pedal with distinct ends maps rest to 0 and pressed to 1 monotonically, for every curve and deadzone |
| LearnedCalibration.CurvesAct | internal/system/input_profiles_windows.go:318-366 | strictly between deadzone and pressed a linear pedal plays back the share the deadzone leaves, in proportion to the raw way, a progressive one strictly less (its power 1.65) and a soft one strictly more (its power 0.65) |
| LearnedCalibration.FirstPressedBit | internal/system/input_profiles_windows.go:175-186 | the index of the one newly set bit, and none exactly if there is not exactly one |
| UdpAdapterLayer.UdpAdapter.Install | internal/gameadapter/udp.go:57-64 | a Start resets counters, last frame and ring |
| UdpAdapterLayer.UdpAdapter.TakeSession | internal/gameadapter/udp.go:126-131 | a Stop takes the session out of the record and reports the adapter stopped |
| UdpAdapterLayer.UdpAdapter.constructor | internal/gameadapter/udp.go:27-36 | a new adapter is stopped and empty |
| UdpAdapterLayer.UdpAdapter.CountPacket | internal/gameadapter/udp.go:93-95 | a packet is counted before it is judged, nothing else changes |
| UdpAdapterLayer.UdpAdapter.RefusePacket | internal/gameadapter/udp.go:96-101 | a packet from elsewhere than loopback is invalid, nothing else changes |
| UdpAdapterLayer.UdpAdapter.ReadFailed | internal/gameadapter/udp.go:86-90 | a broken socket stops the adapter, counters and ring stay |
| UdpAdapterLayer.UdpAdapter.Judge | internal/gameadapter/udp.go:102-122 | a rejected packet is invalid; an accepted one is stamped, becomes last and is appended to a ring of at most 256 |
| UdpAdapterLayer.UdpAdapter.Snapshot | internal/gameadapter/udp.go:152-160 | a snapshot is stale exactly if there is a last frame older than 750 ms |
| UdpAdapterLayer.UdpAdapter.RecentFrames | internal/gameadapter/udp.go:162-166 | a copy of the ring |
| UdpAdapterLayer.RingIsRecentHistory | internal/gameadapter/udp.go:102-122 | in every run the ring is exactly the last min(Frames, 256) accepted frames in order, each stamped, with last as its tail |
| UdpAdapterLayer.CountersAddUpIff | internal/gameadapter/udp.go:70-124 | with no packet in hand, Packets = Frames + Invalid if and only if no loop held a packet when the counters were last reset |
| UdpAdapterLayer.PacketsAreAccountedFor | internal/gameadapter/udp.go:70-124 | while no Stop times out, Packets = Frames + Invalid after every iteration, and one more during one |
| UdpAdapterLayer.HistoryIsTold | internal/gameadapter/udp.go:70-124 | while no Stop times out, the accepted frames are one by one and field by field the parsed ones since the last Start: their readings, their game or the adapter's, its id, and the time of their own packet |
| UdpAdapterLayer.ShownIsTold | internal/gameadapter/udp.go:102-122 | so the ring shows the last 256 parsed frames, and last the last of them |
| UdpAdapterLayer.RunningIffLoopAlive | internal/gameadapter/udp.go:82-93 | while no Stop times out, the adapter reports itself running exactly while its session has a loop that will read again |
| UdpAdapterLayer.NothingChangesAfterStop | internal/gameadapter/udp.go:126-150 | if no Stop timed out before, once a Stop returned nil nothing changes before the next Start |
| UdpAdapterLayer.StopCanFinish | internal/gameadapter/udp.go:126-150 | a waiting Stop has told its loop to stop, which is at most three of its own steps from its end |
| UdpAdapterLayer.OrphanSpoilsCounters | internal/gameadapter/udp.go:126-150 | a run in which a timed-out Stop leaves one invalid packet out of none |

## Left out

- Floating point: values are reals; rounding, NaN and infinities are not modelled, the tolerances 1e-9 and 1e-12 are.
- Counter widths: generations, health counters and write counters are unbounded, the source's uint64 wraps around.
- `strings.EqualFold` on paths is plain equality.
- HID, overlapped I/O, sockets, clocks, the registry and processes: only their outcomes appear, as arbitrary flags, times and reports.
- Status texts (`lastError` and the like), sample rates, addresses and reports shown to users: they steer nothing.
- `AtomicWriteFile` is taken to be atomic; JSON encoding and decoding are taken to be faithful but for stray bytes in preset names.
- Latency statistics of the shaping pipeline.
- Authorisation of adapters, target checks of migrations and record ages are parameters.
- `math.Pow` is a parameter with the shape the code relies on: on 0..1 strictly increasing in the base and strictly decreasing in the exponent, fixing 0 and 1, the exponent 1 changing nothing.
- Another process that writes a journal between the listing and the write of `BeginMigration`: the two are one step here, the source holds no lock between them.
- Byte strings that spell a character out of stray bytes: a text is taken to split its bytes as Go does.
- Backup names and migration ids are taken to be new, as their time stamps and random parts intend.
- Start times of migrations are numbers, the source compares their text.
- Report bytes other than the force byte: parsing of raw G27 reports and the H-shifter are not modelled.
- Sliders, range tracking, `SetRange`, LED and native-switch reports, spring and damper reports: independent of the force path's state.
- The G25 and DFGT reader of `classic_shared_hid_windows.go`: it closes its handle unconditionally, so exactly-once closing is stated for the G27 session only.
- An engine `Start` racing a `Stop` still in progress: calls are serialised; the pump goroutine is not.
- The dry run of `fusion_c3_windows.go`: one scenario of what `MotorCeiling` states for all.
- Windows, painting, themes, setup and diagnostics.
- MigrationJournal.OneMigrationInFlight: assumes that nobody marks an already resolved record as running again, because the source has no guard there.
- UdpAdapterLayer.NothingChangesAfterStop: assumes that no earlier Stop timed out, because an orphaned loop keeps writing.
- SharedSession.CloseIsExact: a CloseHandle is taken to succeed on an open handle.
