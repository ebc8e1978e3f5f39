/**
  The voice activity detector on a sustained tone: starting from a silent
  noise floor, a constant energy of 1000 opens a recording on the first
  buffer and never opens a second one, however long the tone lasts, even
  after the floor has caught up and the recording has been closed.
 */
module DetectorProofs {
  import opened Utterance
  import opened Volume
  import opened AudioModule

  const Tone: real := 1000.0

  /** A capture-loop iteration that reads a non-empty buffer of the tone while nothing plays. */
  predicate IsToneCapture(e: Event) {
    e.Capture? && !e.outputBefore && e.bytesRead > 0 && e.rms == Tone
  }

  /** Where the tone starts: VAD on, running, nothing recorded or playing, a silent floor. */
  ghost predicate Quiet(m: Module) {
    && m.vad && !m.paused && m.input.None? && m.output.None?
    && m.backgroundVolume == 0.0 && 0.0 <= m.currentVolume <= Tone
  }

  /**
    What holds after every tone buffer once the recording numbered `n` has
    started: both estimates stay at or below the tone, the smoothed volume is
    closer to it than the floor is (within seven tenths of the floor's gap),
    and once the recording is closed the floor is within 250 of the tone.
   */
  ghost predicate Course(m: Module, n: nat) {
    && m.vad && !m.paused && m.output.None? && m.recordings == n
    && m.currentVolume <= Tone && m.backgroundVolume <= Tone
    && Tone - m.currentVolume <= 0.7 * (Tone - m.backgroundVolume)
    && (m.input.None? ==> Tone - m.backgroundVolume < VolumeThreshold)
  }

  /** The first tone buffer opens a recording. */
  lemma FirstToneBufferStarts(m: Module, bytesRead: nat, buffer: seq<byte>)
    requires Quiet(m) && bytesRead > 0
    ensures Course(CaptureStep(m, false, bytesRead, Tone, buffer), m.recordings + 1)
    ensures CaptureStep(m, false, bytesRead, Tone, buffer).input.Some?
  {
    var cv := Smooth(m.currentVolume, Tone);
    var bg := NextBackground(m.backgroundVolume, Tone);
    assert bg == 3.0;
    assert cv >= 1000.0 / 3.0;
    assert Onset(cv - bg);
    assert !Offset(cv - bg);
  }

  /** Each further tone buffer keeps the course and opens nothing new. */
  lemma ToneBufferKeepsCourse(m: Module, bytesRead: nat, rec: nat, buffer: seq<byte>)
    requires Course(m, rec) && bytesRead > 0
    ensures Course(CaptureStep(m, false, bytesRead, Tone, buffer), rec)
  {
    var cv := Smooth(m.currentVolume, Tone);
    var bg := NextBackground(m.backgroundVolume, Tone);
    assert Tone - bg == (Tone - m.backgroundVolume) * 0.997;
    assert Tone - cv == (Tone - m.currentVolume) * 2.0 / 3.0;
    assert Tone - cv <= 0.7 * (Tone - bg);
    if m.input.None? {
      assert !Onset(cv - bg);
    } else if Offset(cv - bg) {
      assert Tone - bg < VolumeThreshold;
    }
  }

  lemma {:induction false} ToneKeepsCourse(m: Module, es: seq<Event>, rec: nat)
    requires Course(m, rec)
    requires forall k :: 0 <= k < |es| ==> IsToneCapture(es[k])
    ensures Course(Run(m, es), rec)
    decreases |es|
  {
    if es != [] {
      var e := es[0];
      ToneBufferKeepsCourse(m, e.bytesRead, rec, e.buffer);
      ToneKeepsCourse(Step(m, e), es[1..], rec);
    }
  }

  /**
    A sustained tone from a silent floor starts exactly one recording, on its
    first buffer, no matter how many buffers follow.
   */
  lemma SustainedToneStartsOnce(m: Module, es: seq<Event>)
    requires Quiet(m)
    requires |es| >= 1
    requires forall k :: 0 <= k < |es| ==> IsToneCapture(es[k])
    ensures Step(m, es[0]).input.Some?
    ensures Run(m, es).recordings == m.recordings + 1
  {
    var e := es[0];
    FirstToneBufferStarts(m, e.bytesRead, e.buffer);
    ToneKeepsCourse(Step(m, e), es[1..], m.recordings + 1);
  }
}
