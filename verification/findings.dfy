/**
  Two places where the source's behaviour departs from what it evidently
  intends, each shown on concrete inputs against the code as written and
  against the corrected definition the rest of the model uses.
 */
module AudioFindings {
  import opened Utterance
  import opened Volume
  import opened AudioModule

  /** The running module after a VAD onset opened recording 1, and it was stopped again. */
  function FirstRecordingStopped(): (m: Module)
    ensures m.input.None? && m.recordings == 1 && m.timers == [1]
    ensures m.log == [RemoveUserSpeech]
  {
    StopRecording(StartRecording(Start(Init()), MinDuration))
  }

  /** Recording 2 has started before the commit timer armed by recording 1 has fired. */
  function SecondRecordingOpen(): (m: Module)
    ensures m.input == Some(Empty()) && m.recordings == 2 && m.timers == [1, 2]
    ensures m.log == [RemoveUserSpeech]
  {
    StartRecording(FirstRecordingStopped(), MinDuration)
  }

  /**
    As written, the timer armed by recording 1 adds recording 2, which is
    then stopped before its own timer fires: an utterance finalised before
    its minimum duration has reached the dialogue state.
   */
  lemma AsWrittenAddsReplacementEarly()
    ensures var fired := CommitTimerFiresAsWritten(SecondRecordingOpen(), 0);
            && fired.log == [RemoveUserSpeech, AddUserSpeech(2)]
            && fired.timers == [2]
            && StopRecording(fired).log == [RemoveUserSpeech, AddUserSpeech(2), RemoveUserSpeech]
  {
  }

  /** As written, when both timers fire while recording 2 is open, it is added twice. */
  lemma AsWrittenAddsTwice()
    ensures var twice := CommitTimerFiresAsWritten(CommitTimerFiresAsWritten(SecondRecordingOpen(), 0), 0);
            twice.log == [RemoveUserSpeech, AddUserSpeech(2), AddUserSpeech(2)]
  {
  }

  /**
    Two firings of whichever timer is first pending: from `SecondRecordingOpen`
    that is recording 1's timer, then recording 2's own.
   */
  function TwoTimerEvents(): (es: seq<Event>)
    ensures |es| == 2 && es[0] == CommitTimer(0) && es[1] == CommitTimer(0)
  {
    [CommitTimer(0), CommitTimer(0)]
  }

  /** A run of the source's transitions over the two events is two successive first-pending firings. */
  lemma RunAsWrittenTwoTimers(m: Module)
    ensures RunAsWritten(m, TwoTimerEvents())
            == CommitTimerFiresAsWritten(CommitTimerFiresAsWritten(m, 0), 0)
  {
    var es := TwoTimerEvents();
    var w1 := StepAsWritten(m, es[0]);
    assert RunAsWritten(m, es) == RunAsWritten(w1, es[1..]);
    assert es[1..][1..] == [];
  }

  /** A run of the corrected transitions over the two events is two corrected firings. */
  lemma RunTwoTimers(m: Module)
    ensures Run(m, TwoTimerEvents()) == CommitTimerFires(CommitTimerFires(m, 0), 0)
  {
    var es := TwoTimerEvents();
    var c1 := Step(m, es[0]);
    assert Run(m, es) == Run(c1, es[1..]);
    assert es[1..][1..] == [];
  }

  /**
    The same two timer events as a run of the source's transitions: recording
    1's timer, then recording 2's own, each add recording 2.
   */
  lemma AsWrittenRunAddsTwice()
    ensures RunAsWritten(SecondRecordingOpen(), TwoTimerEvents()).log
            == [RemoveUserSpeech, AddUserSpeech(2), AddUserSpeech(2)]
  {
    RunAsWrittenTwoTimers(SecondRecordingOpen());
    AsWrittenAddsTwice();
  }

  /** The same two timer events as a run of the corrected transitions: recording 2 is added once. */
  lemma CorrectedRunAddsOnce()
    ensures Run(SecondRecordingOpen(), TwoTimerEvents()).log == [RemoveUserSpeech, AddUserSpeech(2)]
  {
    RunTwoTimers(SecondRecordingOpen());
    CorrectedAddsOnlyOwnRecording();
  }

  /**
    Corrected, the timer of recording 1 adds nothing, and recording 2 is added
    once, by its own timer.
   */
  lemma CorrectedAddsOnlyOwnRecording()
    ensures var first := CommitTimerFires(SecondRecordingOpen(), 0);
            && first.log == [RemoveUserSpeech]
            && CommitTimerFires(first, 0).log == [RemoveUserSpeech, AddUserSpeech(2)]
  {
  }

  /** The current input, if any, holds no audio. */
  predicate NoBytesCaptured(m: Module) {
    m.input.Some? ==> m.input.value.data == []
  }

  /**
    With the source's own transitions, an output assigned with no player left
    to play it is never cleared: every later event keeps it, no player starts
    again, the microphone is ignored (volumes frozen, and an input holding no
    bytes never receives any) and nothing is written.
   */
  lemma {:induction false} OrphanedOutputStays(m: Module, es: seq<Event>)
    requires m.output.Some? && m.player == Idle
    ensures var r := RunAsWritten(m, es);
            && r.output.Some? && r.player == Idle && r.players == m.players
            && r.currentVolume == m.currentVolume && r.backgroundVolume == m.backgroundVolume
            && r.written == m.written
            && (NoBytesCaptured(m) ==> NoBytesCaptured(r))
    decreases |es|
  {
    if es != [] {
      var s := StepAsWritten(m, es[0]);
      assert s.output.Some? && s.player == Idle && s.players == m.players;
      assert s.currentVolume == m.currentVolume && s.backgroundVolume == m.backgroundVolume;
      assert s.written == m.written;
      assert NoBytesCaptured(m) ==> NoBytesCaptured(s);
      OrphanedOutputStays(s, es[1..]);
    }
  }

  /** A system utterance arrives while the module runs: a player is spawned for it. */
  function SystemSpeaks(): (m: Module)
    ensures m.player == Starting && m.output.Some? && m.players == 1
  {
    Trigger(Start(Init()), {"s_m"}, "s_m", Some(SpeechValue(Speech([1, 2], true))))
  }

  /**
    As written, an unavailable output line leaves the output assigned with no
    player, so the module neither plays nor listens again, whatever follows.
   */
  lemma AsWrittenLineFailureBlocksModule(es: seq<Event>)
    ensures var failed := PlayerOpensAsWritten(SystemSpeaks(), false);
            && failed.output.Some? && failed.player == Idle
            && RunAsWritten(failed, es).output.Some? && RunAsWritten(failed, es).players == 1
            && var r := RunAsWritten(failed, es);
               && r.currentVolume == failed.currentVolume
               && r.backgroundVolume == failed.backgroundVolume
               && NoBytesCaptured(r) && r.written == failed.written
  {
    var failed := PlayerOpensAsWritten(SystemSpeaks(), false);
    OrphanedOutputStays(failed, es);
  }

  /** Corrected, the same failure clears the output and removes the system speech once. */
  lemma CorrectedLineFailureClearsOutput()
    ensures var failed := PlayerOpens(SystemSpeaks(), false);
            && failed.output.None? && failed.player == Idle
            && failed.log == [RemoveSystemSpeech]
  {
  }
}
