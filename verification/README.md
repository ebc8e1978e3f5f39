# OpenDial audio module: decision logic

This project models the decision logic of OpenDial's `AudioModule`. The module
records the user from a microphone and plays synthesised system speech. Its
energy-based voice activity detector (VAD) decides when the user speaks. It
then buffers the speech into an utterance and adds the utterance to the
dialogue state as user input, but only once a minimum duration has passed. A
system utterance that arrives during playback is concatenated onto the one
already playing. While an output is assigned, the capture loop discards
every buffer (line 302), so the detector cannot open a recording during
playback. Playback stops early (barge-in) only when an input already exists,
for instance one opened by a direct `startRecording` call such as
push-to-talk (line 371).

The model has no threads. The module's shared fields become an immutable
record, `AudioModule.Module`. Each thing that can happen becomes a pure
transition over that record:

- one iteration of the capture loop;
- the player opening its output line;
- one iteration of the player loop;
- the player finishing: after draining and closing its line, it removes the
  system-speech variable;
- a deferred-commit timer firing;
- one of the public calls: `start`, `pause`, `activateVAD`, `startRecording`,
  `stopRecording` and `trigger`.

`Step` applies one event and `Run` applies a sequence of them. Interleavings of
the real threads at the granularity of these events are event sequences. A
player's exit is split in two, because the source does not hold a lock across
it:
- leaving the loop clears `outputSpeech` (line 379);
- removing the system speech comes later, after the blocking drain and close
  (lines 380-387).

The `draining` field counts players between those two points. A trigger in
that window sees no output and starts a second player. The first player's
removal then comes after the new speech was assigned. The model keeps this
behaviour.

The record also keeps a log of what the module tells the dialogue state: user
speech added, user speech removed, system speech removed.

Other abstractions:
- Each utterance is numbered. `recordings` plays the part of object identity
  for the `SpeechData` objects created by `startRecording`.
- Java `double` volumes are Dafny `real`s.
- The energy of a buffer (`rms`) is a parameter of the capture event.
- What a player read returns is a parameter of the player event.
- An event that cannot happen in a state changes nothing. Examples are a
  player read with no player running, or a timer position that does not
  exist.

Files:
- `utterance.dfy`: the utterance as bytes plus a final flag. Writing,
  finalising and concatenation.
- `volume.dfy`: the thresholds, smoothing of the current volume, and the
  noise-floor update.
- `audio_module.dfy`: the state record, the transitions, `Step` and `Run`.
- `proofs.dfy`: the invariant of reachable states, and what it gives for
  committing and for the player.
- `detector.dfy`: a sustained tone opens exactly one recording.
- `findings.dfy`: the two defects listed below, shown on concrete inputs.

Two behaviours of the source deserve a note:
- The player's failure path (lines 384-387) never clears `outputSpeech`. The
  player reads `inputSpeech` (line 371) but never writes it. This path is
  kept in `StepAsWritten` through `PlayerOpensAsWritten`; `Step` uses the
  corrected `PlayerOpens`, and Findings describes the defect.
- `startRecording` (lines 170-199) replaces an open recording without
  finalising it. Both `Step` and `StepAsWritten` keep this.

`Step` and `Run` use the corrected transitions, `CommitTimerFires` and
`PlayerOpens`. `StepAsWritten` and `RunAsWritten` use the source's own,
`CommitTimerFiresAsWritten` and `PlayerOpensAsWritten`; the findings are
stated over them. Lemmas about `Run` therefore hold for the corrected module.

## Model

| member | source | states |
|---|---|---|
| Utterance.Write | src/opendial/modules/core/AudioModule.java:324-325 | Writing a buffer to an open utterance keeps it open and adds exactly that buffer after the old content |
| Utterance.SetAsFinal | src/opendial/modules/core/AudioModule.java:206 | Finalising keeps the content and sets the final flag |
| Utterance.Concatenate | src/opendial/modules/core/AudioModule.java:240 | The concatenated utterance reads the playing one, then the new one, and is final exactly when the new one is |
| Volume.Smooth | src/opendial/modules/core/AudioModule.java:309 | The new current volume lies between the old volume and the sample, and its gap to the sample shrinks to two thirds |
| Volume.NextBackground | src/opendial/modules/core/AudioModule.java:310-314 | A quieter sample becomes the noise floor exactly. A louder one closes 0.3% of the gap, so the floor stays in [old floor, sample] and never overshoots the sample |
| Volume.FloorFallsOnlyBySnapping | src/opendial/modules/core/AudioModule.java:310-314 | The floor goes down exactly when the sample is below it |
| AudioModule.Init | src/opendial/modules/core/AudioModule.java:90-106 | A new module is paused, has VAD off, no input or output, and both volumes at 0 |
| AudioModule.Start | src/opendial/modules/core/AudioModule.java:136-137 | Starting un-pauses the module and changes nothing else |
| AudioModule.Pause | src/opendial/modules/core/AudioModule.java:250-252 | Pausing sets the pause flag and changes nothing else |
| AudioModule.PauseControlsRunning | src/opendial/modules/core/AudioModule.java:136-137 | After starting the module runs. After pausing it runs exactly when the pause flag is off. Switching VAD does not change whether it runs (`isRunning` is lines 258-260) |
| AudioModule.ActivateVad | src/opendial/modules/core/AudioModule.java:157-159 | Switching VAD sets the flag and keeps the volume estimates |
| AudioModule.AddIfOpen | src/opendial/modules/core/AudioModule.java:177-181 | The current input is added to the dialogue state if and only if it exists and is not final. Nothing else changes |
| AudioModule.StartRecording | src/opendial/modules/core/AudioModule.java:170-199 | When paused, nothing changes. Otherwise a fresh, empty, open input is numbered. It is either added at once (no minimum duration) or gets one pending timer. Output and volumes are untouched. Nothing besides the input, its number, the timers and the log changes |
| AudioModule.StopRecording | src/opendial/modules/core/AudioModule.java:204-215 | With no input, nothing changes. Otherwise the input is finalised with its content, handed over and dropped, and exactly one user-speech removal is logged |
| AudioModule.CommitTimerFiresAsWritten | src/opendial/modules/core/AudioModule.java:177-191 | A firing timer is removed and adds whatever input is open at that moment, whichever recording armed it. Nothing besides the timers and the log changes |
| AudioModule.CommitTimerFires | src/opendial/modules/core/AudioModule.java:177-191 | A firing timer is removed. It adds its own recording if and only if that recording is still the input and still open. Nothing besides the timers and the log changes |
| AudioModule.CaptureStep | src/opendial/modules/core/AudioModule.java:288-332 | A buffer is discarded, with nothing changed, in two cases: barge-in drain (output before the read, none after), or output playing, 0 bytes read, or VAD off with no input. Otherwise both volume estimates update. A recording starts if and only if VAD is on, there is no input, the module is not paused and the difference is over 250. A recording started in a step holds the buffer and is not stopped in the same step. A recording stops if and only if VAD is on, an open input exists and the difference is under 25. Bytes go only to an existing open input. An onset arms one deferred commit for the new recording. Without a start the timers stay, and with neither start nor stop the log stays. The output, player, written reads and flags never change. Finalised utterances change only on a stop, which appends exactly one and keeps the earlier ones |
| AudioModule.Trigger | src/opendial/modules/core/AudioModule.java:223-244 | Acts only when the system-speech variable is updated and its best value is speech. With no output, the value becomes the output and one player starts. Otherwise the output becomes the old output concatenated with the value: old bytes then new bytes, final exactly when the value is, and no player starts. Nothing besides the output and the player fields changes |
| AudioModule.ReleaseOutput | src/opendial/modules/core/AudioModule.java:379 | Leaving the loop clears the output and makes the player idle. One more player is draining. Nothing else changes |
| AudioModule.FinishPlayer | src/opendial/modules/core/AudioModule.java:380-387 | A draining player logs exactly one system-speech removal and stops draining, whatever output is assigned by then. With none draining nothing changes |
| AudioModule.PlayerOpensAsWritten | src/opendial/modules/core/AudioModule.java:354-387 | With no output the player returns silently. An unavailable line logs the removal but leaves the output assigned. Otherwise the player enters its loop. Nothing besides the output, player phase, log and drain count changes |
| AudioModule.PlayerOpens | src/opendial/modules/core/AudioModule.java:354-387 | Same as the as-written version, except that an unavailable line clears the output before logging the removal. After opening, a player is idle if and only if there is no output. Nothing besides the output, player phase, log and drain count changes |
| AudioModule.PlayerReads | src/opendial/modules/core/AudioModule.java:365-379 | Any input stops the loop without writing (barge-in). Only non-negative reads are written. A read of -1 stops the loop. Stopping clears the output and starts the drain; the removal is not logged yet. Any other read keeps playing. The log and the input are untouched. Nothing besides the output, player phase, drain count and written reads changes |
| AudioProofs.StartRecordingKeepsInv | src/opendial/modules/core/AudioModule.java:170-199 | Starting a recording keeps the invariant: the new number is fresh, so no recording is added or pending twice |
| AudioProofs.StopRecordingKeepsInv | src/opendial/modules/core/AudioModule.java:204-215 | Stopping a recording keeps the invariant |
| AudioProofs.CommitTimerKeepsInv | src/opendial/modules/core/AudioModule.java:177-191 | A firing timer trades its pending entry for at most one addition of the same recording |
| AudioProofs.CaptureKeepsInv | src/opendial/modules/core/AudioModule.java:288-332 | A capture iteration keeps the invariant through its start, write and stop phases |
| AudioProofs.TriggerKeepsInv | src/opendial/modules/core/AudioModule.java:223-244 | A trigger keeps the invariant, including the count of started players |
| AudioProofs.PlayerOpensKeepsInv | src/opendial/modules/core/AudioModule.java:354-387 | Opening the line, or failing to, keeps the invariant |
| AudioProofs.PlayerReadsKeepsInv | src/opendial/modules/core/AudioModule.java:365-379 | A player iteration keeps the invariant |
| AudioProofs.FinishPlayerKeepsInv | src/opendial/modules/core/AudioModule.java:380-387 | A finishing player keeps the invariant: its removal is the one still owed |
| AudioProofs.StepKeepsInv | src/opendial/modules/core/AudioModule.java:136-387 | Every event keeps the invariant |
| AudioProofs.RunKeepsInv | src/opendial/modules/core/AudioModule.java:136-387 | Every event sequence keeps the invariant |
| AudioProofs.AddedAtMostOnce | src/opendial/modules/core/AudioModule.java:170-199 | In every reachable state (corrected `Step`), each recording has been added to the dialogue state at most once |
| AudioProofs.OpenAtOwnTimerAddedOnce | src/opendial/modules/core/AudioModule.java:177-191 | A recording still open when its own timer fires (corrected `Step`) is added then, and exactly once |
| AudioProofs.CaptureIgnoredDuringPlayback | src/opendial/modules/core/AudioModule.java:289-305 | While an output is assigned, any run of capture iterations changes nothing: the detector cannot open a recording during playback |
| AudioProofs.TriggerNeverStartsSecondPlayer | src/opendial/modules/core/AudioModule.java:231-241 | While an output is assigned, a trigger starts no player, leaves the player phase as it is and keeps an output assigned |
| AudioProofs.ArrivalsJoinPlayingOutput | src/opendial/modules/core/AudioModule.java:237-241 | Any run of speech triggers while an output is assigned leaves one output: the old bytes followed by every arrival's bytes in order, final exactly when the last arrival is. No player starts, and the log and input are untouched |
| AudioProofs.DrainWindowStartsSecondPlayer | src/opendial/modules/core/AudioModule.java:379-387 | A trigger after a player left its loop but before it finished starts a second player. When the first one finishes, it logs its removal while the new output is still assigned |
| AudioProofs.StepKeepsClosedUnadded | src/opendial/modules/core/AudioModule.java:177-181 | A recording that is no longer the open input, and was not added, stays that way after any event |
| AudioProofs.ClosedStaysUnadded | src/opendial/modules/core/AudioModule.java:177-181 | The same holds after any event sequence |
| AudioProofs.StoppedBeforeCommitNeverAdded | src/opendial/modules/core/AudioModule.java:204-215 | A recording stopped before its commit is never added, whatever happens later |
| AudioProofs.SystemSpeechRemovedOncePerPlayer | src/opendial/modules/core/AudioModule.java:379-387 | In every reachable state, the removals logged are the players started, minus those still draining, minus the one owning the output if any: each finished player removed the system speech exactly once |
| AudioProofs.NoOrphanedOutput | src/opendial/modules/core/AudioModule.java:379-387 | In every reachable state (corrected `Step`), no output is assigned while no player owns it |
| DetectorProofs.FirstToneBufferStarts | src/opendial/modules/core/AudioModule.java:307-321 | From a silent floor, with VAD on and running, the first buffer at energy 1000 opens a recording |
| DetectorProofs.ToneBufferKeepsCourse | src/opendial/modules/core/AudioModule.java:307-331 | Each further tone buffer keeps the floor and volume relation that rules out a second onset |
| DetectorProofs.ToneKeepsCourse | src/opendial/modules/core/AudioModule.java:307-331 | Any run of tone buffers keeps that relation |
| DetectorProofs.SustainedToneStartsOnce | src/opendial/modules/core/AudioModule.java:307-332 | A sustained tone from a silent floor starts exactly one recording, on its first buffer |
| AudioFindings.AsWrittenAddsReplacementEarly | src/opendial/modules/core/AudioModule.java:177-191 | As written, recording 1's timer adds recording 2, which is then stopped before its own timer fires |
| AudioFindings.AsWrittenAddsTwice | src/opendial/modules/core/AudioModule.java:177-191 | As written, recording 2 is added twice |
| AudioFindings.AsWrittenRunAddsTwice | src/opendial/modules/core/AudioModule.java:177-191 | As a run of the source's transitions, recording 1's timer, then recording 2's own, each add recording 2, so it is added twice |
| AudioFindings.CorrectedRunAddsOnce | src/opendial/modules/core/AudioModule.java:177-191 | As a run of the corrected transitions, the same events add recording 2 once |
| AudioFindings.CorrectedAddsOnlyOwnRecording | src/opendial/modules/core/AudioModule.java:177-191 | Corrected, recording 1's timer adds nothing, and recording 2 is added once, by its own timer |
| AudioFindings.OrphanedOutputStays | src/opendial/modules/core/AudioModule.java:302-305 | Under the source's transitions, an output with no player is never cleared. Volumes freeze, no player starts, nothing is written, and an input holding no bytes never receives any |
| AudioFindings.AsWrittenLineFailureBlocksModule | src/opendial/modules/core/AudioModule.java:384-387 | As written, an unavailable output line leaves the module unable to play or listen, whatever run of the source's transitions follows: the output stays, no second player starts, the volumes stay frozen, nothing is written and the input never receives a byte |
| AudioFindings.CorrectedLineFailureClearsOutput | src/opendial/modules/core/AudioModule.java:384-387 | Corrected, the same failure clears the output and logs one removal |

## Left out

- Threads, `synchronized` and `Thread.sleep` are left out. Interleavings are event sequences, and each event is atomic. The timer is an event, not a clock, so durations in milliseconds are not modelled.
- Interleavings finer than one event are left out. The capture loop's two reads of `outputSpeech` around the blocking read (lines 289-295) are covered by the `outputBefore` parameter. Its later unsynchronised reads of `inputSpeech` and the VAD flag (lines 318-331) are taken as one atomic step.
- Device I/O is left out. That covers selecting, opening, starting, flushing, draining and closing lines, the `audioLine.isOpen()` loop guard, the shutdown hook, and re-selecting the input line in `start`. An exception in the capture loop ends the loop; this is not modelled.
- The energy computation (`AudioUtils.getRMS`) is left out. `rms` is an uninterpreted input.
- Saving the recording to `SAVE_SPEECH` in `stopRecording` is left out. It is a file side effect, and `SpeechData.length()` is not part of this model.
- `SpeechData` is not part of this model. Reads, the formats of concatenated utterances, and blocking reads are abstracted. The player's read result is an input. `Utterance.Concatenate` takes concatenation to give the bytes of both utterances in order, final when the second is. That the player hears no gap between concatenated utterances depends on `SpeechData.read`, which is not modelled, so it is not stated; `AudioProofs.ArrivalsJoinPlayingOutput` states the byte order only.
- `AudioModule.CaptureStep`: always appends the whole buffer, as the source does, and does not relate `bytesRead` to the buffer length.
- `getVolume` is a UI accessor; the volume fields are visible in the state instead. Logging and the GUI push-to-talk button are left out.
- IEEE-754 rounding of the volume arithmetic is left out.
- AudioProofs.NoOrphanedOutput: holds only because `Trigger` is one atomic event. In the source `trigger` is `synchronized` but the player's `outputSpeech = null` (line 379) is not. If line 379 runs between trigger's test at line 232 and its read at line 240, `trigger` throws a `NullPointerException` and the new speech is lost. If it runs between the read and the assignment at line 240, `trigger` stores the old output concatenated with the new one after the clear. That output has no player, the same lock-up as the second Findings row. The model does not split `trigger` into a read and a write, so this race is not represented.
- AudioModule.StartRecording: assumes the input line exists. `audioLine` is assigned only by `start()` (line 141), and `pause(false)` (line 251) clears the pause flag without it. A `startRecording` after `pause(false)` on a module never started throws a `NullPointerException` at `audioLine.getFormat()` (line 174) and leaves `inputSpeech` as it was. The model opens a recording there instead, because the state record has no flag for whether the line was selected.
- `AudioModule.PlayerOpens`: `PlayerOpens(m, false)` stands for `LineUnavailableException` only (line 384). Other failures to obtain or open a line, such as an `IllegalArgumentException` for an unsupported format from `getSourceDataLine` or `open`, escape `SpeechPlayer.run`. They skip both line 379 and line 387, so no removal is logged. These are not modelled.

## Findings

| source | as written | input that shows it | evidently intended | confidence | as-written member | corrected member |
|---|---|---|---|---|---|---|
| src/opendial/modules/core/AudioModule.java:177-191 | The deferred commit reads the `inputSpeech` field when the timer fires. It does not check which utterance armed the timer | Recording 1 starts and stops. Recording 2 starts. Recording 1's timer fires and adds recording 2 early; recording 2's own timer then adds it again | A timer adds only the utterance it was armed for, and only if that utterance is still open | medium, not executed | AudioFindings.AsWrittenAddsReplacementEarly | AudioFindings.CorrectedAddsOnlyOwnRecording |
| src/opendial/modules/core/AudioModule.java:384-387 | On `LineUnavailableException` the player removes the system speech but never clears `outputSpeech` | A system utterance is triggered and its output line cannot be opened. Afterwards every capture buffer is discarded (line 302) and every later trigger is concatenated onto the orphaned output, so nothing plays | The output reference is cleared whenever the player ends | medium, not executed | AudioFindings.AsWrittenLineFailureBlocksModule | AudioFindings.CorrectedLineFailureClearsOutput |

`Step` uses the corrected `CommitTimerFires` and `PlayerOpens`. The as-written
versions, `CommitTimerFiresAsWritten` and `PlayerOpensAsWritten`, are kept next
to them and drive `StepAsWritten` and `RunAsWritten`.
