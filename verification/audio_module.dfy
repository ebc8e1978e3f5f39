/**
  The decision logic of the audio module as pure transitions over an immutable
  record of its shared state. Threads are replaced by explicit events: one
  iteration of the capture loop, one iteration of the player loop, the firing
  of a deferred-commit timer, and the public control calls.
 */
module AudioModule {
  import opened Utterance
  import opened Volume

  /** What the module tells the dialogue state. */
  datatype DialogueEvent =
    | AddUserSpeech(recording: nat)   // the recording numbered `recording` is added as user input
    | RemoveUserSpeech                // the user-speech variable is removed
    | RemoveSystemSpeech              // the system-speech variable is removed

  /** Best value of a dialogue-state variable, as far as the module distinguishes it. */
  datatype Value = SpeechValue(speech: Speech) | OtherValue

  /**
    Life of the player thread that owns the output: none, spawned but not yet
    past opening its output line, or inside its read/write loop. A player
    that has left its loop no longer owns the output; it is counted in
    `draining` until it removes the system-speech variable.
   */
  datatype Player = Idle | Starting | Playing

  /**
    Shared state of the module. `recordings` numbers the input utterances
    created so far; the current input, when present, is number `recordings`.
    `timers` holds the pending deferred commits, each with the number of the
    recording that armed it. `written` lists the chunk sizes sent to output
    lines, `finalised` the input utterances closed so far, `players` the
    number of player threads started, `draining` the number of players that
    have cleared the output but not yet removed the system-speech variable,
    and `log` the updates sent to the dialogue state.
   */
  datatype Module = Module(
    paused: bool,
    vad: bool,
    input: Option<Speech>,
    output: Option<Speech>,
    player: Player,
    currentVolume: real,
    backgroundVolume: real,
    recordings: nat,
    timers: seq<nat>,
    players: nat,
    draining: nat,
    written: seq<int>,
    finalised: seq<Speech>,
    log: seq<DialogueEvent>)

  /** A module as constructed: paused, VAD off, nothing recorded or playing, volumes at zero. */
  function Init(): (m: Module)
    ensures m.paused && !m.vad && m.input.None? && m.output.None? && m.player == Idle
    ensures m.currentVolume == 0.0 && m.backgroundVolume == 0.0
    ensures m.log == [] && m.timers == [] && m.recordings == 0 && m.players == 0 && m.draining == 0
  {
    Module(true, false, None, None, Idle, 0.0, 0.0, 0, [], 0, 0, [], [], [])
  }

  /** Starting the module un-pauses it (device selection and the recorder thread are outside the model). */
  function Start(m: Module): (r: Module)
    ensures !r.paused && r.(paused := m.paused) == m
  {
    m.(paused := false)
  }

  /** Pausing or resuming: only the pause flag changes. */
  function Pause(m: Module, toPause: bool): (r: Module)
    ensures r.paused == toPause && r.(paused := m.paused) == m
  {
    m.(paused := toPause)
  }

  /** The module runs exactly when it is not paused. */
  function IsRunning(m: Module): bool {
    !m.paused
  }

  /** Starting makes the module run, and pausing decides whether it runs. */
  lemma PauseControlsRunning(m: Module, toPause: bool)
    ensures IsRunning(Start(m))
    ensures IsRunning(Pause(m, toPause)) <==> !toPause
    ensures IsRunning(ActivateVad(m, toPause)) == IsRunning(m)
  {
  }

  /** Switching voice activity detection on or off leaves the volume estimates alone. */
  function ActivateVad(m: Module, on: bool): (r: Module)
    ensures r.vad == on && r.(vad := m.vad) == m
  {
    m.(vad := on)
  }

  /**
    The deferred user-input update: the current input is added to the
    dialogue state only if it exists and is not final.
   */
  function AddIfOpen(m: Module): (r: Module)
    ensures m.input.Some? && !m.input.value.final ==> r.log == m.log + [AddUserSpeech(m.recordings)]
    ensures !(m.input.Some? && !m.input.value.final) ==> r.log == m.log
    ensures r.(log := m.log) == m
  {
    if m.input.Some? && !m.input.value.final then m.(log := m.log + [AddUserSpeech(m.recordings)])
    else m
  }

  /**
    Starting a recording. When paused nothing changes. Otherwise a new open,
    empty utterance becomes the input; with a positive minimum duration a
    deferred commit is armed for it, and without one it is added at once.
   */
  function StartRecording(m: Module, minDuration: int): (r: Module)
    ensures m.paused ==> r == m
    ensures !m.paused ==> r.input == Some(Empty()) && r.recordings == m.recordings + 1
    ensures !m.paused && minDuration > 0 ==>
              r.timers == m.timers + [r.recordings] && r.log == m.log
    ensures !m.paused && minDuration <= 0 ==>
              r.timers == m.timers && r.log == m.log + [AddUserSpeech(r.recordings)]
    ensures r.output == m.output && r.player == m.player && r.finalised == m.finalised
    ensures r.currentVolume == m.currentVolume && r.backgroundVolume == m.backgroundVolume
    // only the input, its number, the timers and the log change
    ensures r.(input := m.input, recordings := m.recordings, timers := m.timers, log := m.log) == m
  {
    if m.paused then m
    else
      var m1 := m.(input := Some(Empty()), recordings := m.recordings + 1);
      if minDuration > 0 then m1.(timers := m1.timers + [m1.recordings])
      else AddIfOpen(m1)
  }

  /**
    Stopping a recording: an existing input is marked final, handed over,
    dropped, and exactly one removal of the user-speech variable is logged.
    Without an input nothing changes.
   */
  function StopRecording(m: Module): (r: Module)
    ensures m.input.None? ==> r == m
    ensures m.input.Some? ==>
              && r.input.None?
              && r.finalised == m.finalised + [SetAsFinal(m.input.value)]
              && r.log == m.log + [RemoveUserSpeech]
              && r.(input := m.input, finalised := m.finalised, log := m.log) == m
  {
    match m.input
    case None => m
    case Some(u) =>
      m.(input := None, finalised := m.finalised + [SetAsFinal(u)], log := m.log + [RemoveUserSpeech])
  }

  /** Removes the element at position `i`. */
  function RemoveAt(s: seq<nat>, i: nat): (r: seq<nat>)
    requires i < |s|
    ensures |r| == |s| - 1
    ensures multiset(r) == multiset(s) - multiset{s[i]}
  {
    assert s == s[..i] + [s[i]] + s[i+1..];
    s[..i] + s[i+1..]
  }

  /**
    The deferred commit as the source writes it: when the timer at position
    `i` fires, it looks at whatever utterance is the input at that moment, not
    at the one that armed it.
   */
  function CommitTimerFiresAsWritten(m: Module, i: nat): (r: Module)
    ensures i >= |m.timers| ==> r == m
    ensures i < |m.timers| ==> r.timers == RemoveAt(m.timers, i)
    ensures i < |m.timers| && m.input.Some? && !m.input.value.final ==>
              r.log == m.log + [AddUserSpeech(m.recordings)]
    ensures i < |m.timers| && !(m.input.Some? && !m.input.value.final) ==> r.log == m.log
    ensures r.input == m.input && r.recordings == m.recordings
    // only the timers and the log change
    ensures r.(timers := m.timers, log := m.log) == m
  {
    if i >= |m.timers| then m
    else AddIfOpen(m.(timers := RemoveAt(m.timers, i)))
  }

  /**
    The deferred commit as intended: the timer adds the utterance only if the
    one that armed it is still the input and is still open, so an utterance
    finalised before its own timer fires is never added.
   */
  function CommitTimerFires(m: Module, i: nat): (r: Module)
    ensures i >= |m.timers| ==> r == m
    ensures i < |m.timers| ==> r.timers == RemoveAt(m.timers, i)
    ensures i < |m.timers| ==>
              (r.log == m.log + [AddUserSpeech(m.timers[i])]
               <==> m.input.Some? && !m.input.value.final && m.timers[i] == m.recordings)
    ensures i < |m.timers| && !(m.input.Some? && !m.input.value.final && m.timers[i] == m.recordings) ==>
              r.log == m.log
    ensures r.input == m.input && r.recordings == m.recordings && r.output == m.output
    // only the timers and the log change
    ensures r.(timers := m.timers, log := m.log) == m
  {
    if i >= |m.timers| then m
    else
      var armedFor := m.timers[i];
      var m1 := m.(timers := RemoveAt(m.timers, i));
      if armedFor == m.recordings then AddIfOpen(m1) else m1
  }

  /**
    Whether a capture-loop iteration leaves its buffer unprocessed: the output
    was playing before the read and has just been cleared (barge-in drain), or
    the output is still playing, nothing was read, or VAD is off with no
    recording under way.
   */
  predicate Discards(m: Module, outputBefore: bool, bytesRead: nat) {
    || (outputBefore && m.output.None?)
    || m.output.Some?
    || bytesRead == 0
    || (!m.vad && m.input.None?)
  }

  /**
    One iteration of the capture loop. `outputBefore` is whether an output was
    playing before the blocking read, `bytesRead` what the read returned,
    `rms` the energy of `buffer`.
   */
  function CaptureStep(m: Module, outputBefore: bool, bytesRead: nat, rms: real, buffer: seq<byte>): (r: Module)
    // discarded buffers change nothing
    ensures Discards(m, outputBefore, bytesRead) ==> r == m
    // processed buffers update both volume estimates
    ensures !Discards(m, outputBefore, bytesRead) ==>
              && r.currentVolume == Smooth(m.currentVolume, rms)
              && r.backgroundVolume == NextBackground(m.backgroundVolume, rms)
    // a recording starts exactly on a VAD onset while not paused and not recording
    ensures r.recordings == m.recordings + 1 <==>
              && !Discards(m, outputBefore, bytesRead)
              && m.vad && m.input.None? && !m.paused
              && Onset(r.currentVolume - r.backgroundVolume)
    ensures r.recordings == m.recordings || r.recordings == m.recordings + 1
    // hysteresis: a recording started here is not also stopped here, and holds this buffer
    ensures r.recordings == m.recordings + 1 ==>
              && r.input == Some(Write(Empty(), buffer))
              && r.log == m.log && r.finalised == m.finalised
    // a recording is stopped exactly on a VAD offset while one is open
    ensures |r.finalised| == |m.finalised| + 1 <==>
              && !Discards(m, outputBefore, bytesRead)
              && m.vad && m.input.Some? && !m.input.value.final
              && Offset(r.currentVolume - r.backgroundVolume)
    ensures |r.finalised| == |m.finalised| + 1 ==>
              && m.input.Some?
              && r.input.None?
              && r.finalised[|m.finalised|] == SetAsFinal(Write(m.input.value, buffer))
              && r.log == m.log + [RemoveUserSpeech]
    // bytes go only to an existing open input that survives the step
    ensures r.input.Some? && r.recordings == m.recordings && r.input != m.input ==>
              m.input.Some? && !m.input.value.final && r.input.value == Write(m.input.value, buffer)
    ensures && !Discards(m, outputBefore, bytesRead) && m.input.Some? && !m.input.value.final
            && !(m.vad && Offset(r.currentVolume - r.backgroundVolume)) ==>
              r.input == Some(Write(m.input.value, buffer))
    ensures r.output == m.output && r.player == m.player && r.paused == m.paused && r.vad == m.vad
    // the commit armed by an onset is deferred by the minimum duration
    ensures r.recordings == m.recordings + 1 ==> r.timers == m.timers + [r.recordings]
    // without a start the timers stay, and with neither start nor stop so does the log
    ensures r.recordings == m.recordings ==> r.timers == m.timers
    ensures r.recordings == m.recordings && |r.finalised| == |m.finalised| ==> r.log == m.log
    // finalised utterances are only ever appended, and only by a stop
    ensures |r.finalised| != |m.finalised| + 1 ==> r.finalised == m.finalised
    ensures |r.finalised| == |m.finalised| + 1 ==> r.finalised[..|m.finalised|] == m.finalised
    // the player side is untouched
    ensures r.written == m.written && r.players == m.players && r.draining == m.draining
    ensures r.(input := m.input, recordings := m.recordings, timers := m.timers, log := m.log,
               finalised := m.finalised, currentVolume := m.currentVolume,
               backgroundVolume := m.backgroundVolume) == m
  {
    if outputBefore && m.output.None? then m
    else if m.output.Some? || bytesRead == 0 || (!m.vad && m.input.None?) then m
    else
      var cv := Smooth(m.currentVolume, rms);
      var bg := NextBackground(m.backgroundVolume, rms);
      var difference := cv - bg;
      var m1 := m.(currentVolume := cv, backgroundVolume := bg);
      var m2 := if m.vad && m1.input.None? && Onset(difference) then StartRecording(m1, MinDuration) else m1;
      if m2.input.Some? && !m2.input.value.final then
        var m3 := m2.(input := Some(Write(m2.input.value, buffer)));
        if m.vad && Offset(difference) then StopRecording(m3) else m3
      else m2
  }

  /**
    Update notification from the dialogue state. `updatedVars` are the changed
    variable names, `systemSpeech` the name of the system-speech variable and
    `best` the best value of that variable (absent when the state has no such
    node). A speech value either becomes the output, with one new player, or
    is concatenated onto the output already playing.
   */
  function Trigger(m: Module, updatedVars: set<string>, systemSpeech: string, best: Option<Value>): (r: Module)
    ensures !(systemSpeech in updatedVars && best.Some? && best.value.SpeechValue?) ==> r == m
    ensures systemSpeech in updatedVars && best.Some? && best.value.SpeechValue? ==>
              var v := best.value.speech;
              && r.output.Some?
              && (m.output.None? ==>
                    r.output.value == v && r.player == Starting && r.players == m.players + 1)
              && (m.output.Some? ==>
                    && r.output.value == Concatenate(m.output.value, v)
                    && r.output.value.data == m.output.value.data + v.data
                    && (r.output.value.final <==> v.final)
                    && r.player == m.player && r.players == m.players)
    // only the output and the player it may start change
    ensures r.(output := m.output, player := m.player, players := m.players) == m
  {
    if systemSpeech in updatedVars && best.Some? && best.value.SpeechValue? then
      var v := best.value.speech;
      if m.output.None? then m.(output := Some(v), player := Starting, players := m.players + 1)
      else m.(output := Some(Concatenate(m.output.value, v)))
    else m
  }

  /**
    A player leaving its loop: it clears the output and stops owning it, and
    is draining its line until it removes the system-speech variable.
   */
  function ReleaseOutput(m: Module): (r: Module)
    ensures r.output.None? && r.player == Idle && r.draining == m.draining + 1
    ensures r.(output := m.output, player := m.player, draining := m.draining) == m
  {
    m.(output := None, player := Idle, draining := m.draining + 1)
  }

  /**
    A draining player finishing: after draining and closing its line it
    removes the system-speech variable, whatever output is assigned by then.
    With no draining player nothing happens.
   */
  function FinishPlayer(m: Module): (r: Module)
    ensures m.draining == 0 ==> r == m
    ensures m.draining > 0 ==>
              && r.draining == m.draining - 1 && r.log == m.log + [RemoveSystemSpeech]
              && r.(draining := m.draining, log := m.log) == m
  {
    if m.draining == 0 then m
    else m.(draining := m.draining - 1, log := m.log + [RemoveSystemSpeech])
  }

  /**
    The player thread opening its output line, as the source writes it. With
    no output it returns at once without telling the dialogue state; if the
    line is unavailable it removes the system-speech variable but leaves the
    output assigned; otherwise it enters its loop. Other phases ignore the
    event.
   */
  function PlayerOpensAsWritten(m: Module, lineAvailable: bool): (r: Module)
    ensures m.player != Starting ==> r == m
    ensures m.player == Starting && m.output.None? ==> r == m.(player := Idle)
    ensures m.player == Starting && m.output.Some? && !lineAvailable ==>
              && r.output == m.output && r.player == Idle
              && r.log == m.log + [RemoveSystemSpeech]
              && r.draining == m.draining
    ensures m.player == Starting && m.output.Some? && lineAvailable ==> r == m.(player := Playing)
    ensures r.input == m.input
    // only the output, the player phase, the log and the drain count change
    ensures r.(output := m.output, player := m.player, log := m.log, draining := m.draining) == m
  {
    if m.player != Starting then m
    else if m.output.None? then m.(player := Idle)
    else if !lineAvailable then m.(player := Idle, log := m.log + [RemoveSystemSpeech])
    else m.(player := Playing)
  }

  /**
    The player thread opening its output line, with the failure path
    corrected: an unavailable line clears the output before the system-speech
    variable is removed, as a finished run does, so that capture and later
    playback are not blocked by an output that will never be played.
   */
  function PlayerOpens(m: Module, lineAvailable: bool): (r: Module)
    ensures m.player != Starting ==> r == m
    ensures m.player == Starting && m.output.None? ==> r == m.(player := Idle)
    ensures m.player == Starting && m.output.Some? && !lineAvailable ==>
              && r.output.None? && r.player == Idle && r.draining == m.draining
              && r.log == m.log + [RemoveSystemSpeech]
    ensures m.player == Starting && m.output.Some? && lineAvailable ==> r == m.(player := Playing)
    ensures m.player == Starting ==> (r.player == Idle <==> r.output.None?)
    ensures r.input == m.input
    // only the output, the player phase, the log and the drain count change
    ensures r.(output := m.output, player := m.player, log := m.log, draining := m.draining) == m
  {
    if m.player != Starting then m
    else if m.output.None? then m.(player := Idle)
    else if !lineAvailable then FinishPlayer(ReleaseOutput(m))
    else m.(player := Playing)
  }

  /**
    One iteration of the player loop, where `bytesRead` is what reading the
    output returned (-1 at end of stream). The loop stops as soon as an input
    exists (barge-in) without writing, writes only non-negative reads, and
    stops after end of stream; on stopping the output is cleared and the
    player starts draining. Other phases ignore the event.
   */
  function PlayerReads(m: Module, bytesRead: int): (r: Module)
    ensures m.player != Playing ==> r == m
    ensures m.player == Playing && m.input.Some? ==> r == ReleaseOutput(m)
    ensures m.player == Playing && m.input.None? ==>
              && (bytesRead >= 0 ==> r.written == m.written + [bytesRead])
              && (bytesRead < 0 ==> r.written == m.written)
              && (bytesRead == -1 ==> r.output.None? && r.player == Idle && r.draining == m.draining + 1)
              && (bytesRead != -1 ==> r.output == m.output && r.player == Playing && r.draining == m.draining)
    ensures forall k :: 0 <= k < |r.written| && k >= |m.written| ==> r.written[k] >= 0
    ensures r.input == m.input && r.recordings == m.recordings && r.log == m.log
    // only the output, the player phase, the drain count and the written reads change
    ensures r.(output := m.output, player := m.player, draining := m.draining, written := m.written) == m
  {
    if m.player != Playing then m
    else if m.input.Some? then ReleaseOutput(m)
    else
      var m1 := if bytesRead >= 0 then m.(written := m.written + [bytesRead]) else m;
      if bytesRead == -1 then ReleaseOutput(m1) else m1
  }

  /** The events that drive the module. */
  datatype Event =
    | StartModule
    | PauseModule(toPause: bool)
    | SetVad(on: bool)
    | StartRecordingCall(minDuration: int)
    | StopRecordingCall
    | CommitTimer(index: nat)
    | Capture(outputBefore: bool, bytesRead: nat, rms: real, buffer: seq<byte>)
    | TriggerCall(updatedVars: set<string>, systemSpeech: string, best: Option<Value>)
    | PlayerOpen(lineAvailable: bool)
    | PlayerRead(readResult: int)
    | PlayerDrained

  /** Applies one event. */
  function Step(m: Module, e: Event): Module {
    match e
    case StartModule => Start(m)
    case PauseModule(p) => Pause(m, p)
    case SetVad(on) => ActivateVad(m, on)
    case StartRecordingCall(d) => StartRecording(m, d)
    case StopRecordingCall => StopRecording(m)
    case CommitTimer(i) => CommitTimerFires(m, i)
    case Capture(before, n, rms, buffer) => CaptureStep(m, before, n, rms, buffer)
    case TriggerCall(vars, name, best) => Trigger(m, vars, name, best)
    case PlayerOpen(ok) => PlayerOpens(m, ok)
    case PlayerRead(n) => PlayerReads(m, n)
    case PlayerDrained => FinishPlayer(m)
  }

  /** Applies a sequence of events in order. */
  function Run(m: Module, es: seq<Event>): Module
    decreases |es|
  {
    if es == [] then m else Run(Step(m, es[0]), es[1..])
  }

  /**
    One event with the deferred commit and the player's line-failure path as
    the source writes them; every other event is as in `Step`.
   */
  function StepAsWritten(m: Module, e: Event): Module {
    match e
    case CommitTimer(i) => CommitTimerFiresAsWritten(m, i)
    case PlayerOpen(ok) => PlayerOpensAsWritten(m, ok)
    case _ => Step(m, e)
  }

  /** Applies a sequence of events with `StepAsWritten`. */
  function RunAsWritten(m: Module, es: seq<Event>): Module
    decreases |es|
  {
    if es == [] then m else RunAsWritten(StepAsWritten(m, es[0]), es[1..])
  }
}
