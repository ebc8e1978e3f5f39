/**
  Properties of the audio module that span several events of `Step`: the
  invariant every reachable state keeps, what it implies for committing user
  speech and for the players, how arrivals of system speech join the output
  being played, and the window in which a second player can start.
 */
module AudioProofs {
  import opened Utterance
  import opened Volume
  import opened AudioModule

  /** How many times recording `id` has been added to the dialogue state. */
  function Added(log: seq<DialogueEvent>, id: nat): nat {
    multiset(log)[AddUserSpeech(id)]
  }

  /** How many deferred commits armed by recording `id` are still pending. */
  function Pending(timers: seq<nat>, id: nat): nat {
    multiset(timers)[id]
  }

  /** How many times the system-speech variable has been removed. */
  function SystemRemovals(log: seq<DialogueEvent>): nat {
    multiset(log)[RemoveSystemSpeech]
  }

  /**
    The invariant of reachable states: the input, when present, is open and
    numbered; an output is assigned exactly while a player runs; every timer
    and every addition names a recording already created; each recording is
    added or pending at most once in all; and every player started has
    removed the system-speech variable once, except the one owning the output
    and those still draining.
   */
  ghost predicate Inv(m: Module) {
    && (m.input.Some? ==> !m.input.value.final && m.recordings >= 1)
    && (m.player == Idle <==> m.output.None?)
    && (forall k :: 0 <= k < |m.timers| ==> 1 <= m.timers[k] <= m.recordings)
    && (forall k :: 0 <= k < |m.log| && m.log[k].AddUserSpeech? ==> 1 <= m.log[k].recording <= m.recordings)
    && (forall id: nat :: Added(m.log, id) + Pending(m.timers, id) <= 1)
    && SystemRemovals(m.log) + (if m.player == Idle then 0 else 1) + m.draining == m.players
  }

  lemma InitSatisfiesInv()
    ensures Inv(Init())
  {
  }

  /** A recording number above all existing ones is neither added nor pending. */
  lemma FreshIsUnused(m: Module, id: nat)
    requires Inv(m)
    requires id > m.recordings
    ensures Added(m.log, id) == 0 && Pending(m.timers, id) == 0
  {
  }

  lemma StartRecordingKeepsInv(m: Module, d: int)
    requires Inv(m)
    ensures Inv(StartRecording(m, d))
  {
    var r := StartRecording(m, d);
    if !m.paused {
      FreshIsUnused(m, m.recordings + 1);
      forall id: nat ensures Added(r.log, id) + Pending(r.timers, id) <= 1 {
        assert Added(m.log, id) + Pending(m.timers, id) <= 1;
      }
    }
  }

  lemma StopRecordingKeepsInv(m: Module)
    requires Inv(m)
    ensures Inv(StopRecording(m))
  {
    var r := StopRecording(m);
    forall id: nat ensures Added(r.log, id) + Pending(r.timers, id) <= 1 {
      assert Added(r.log, id) == Added(m.log, id);
    }
  }

  lemma CommitTimerKeepsInv(m: Module, i: nat)
    requires Inv(m)
    ensures Inv(CommitTimerFires(m, i))
  {
    var r := CommitTimerFires(m, i);
    if i < |m.timers| {
      var armed := m.timers[i];
      assert multiset(r.timers) == multiset(m.timers) - multiset{armed};
      assert forall k :: 0 <= k < |r.timers| ==> r.timers[k] in multiset(m.timers);
      forall id: nat ensures Added(r.log, id) + Pending(r.timers, id) <= 1 {
        assert Added(m.log, id) + Pending(m.timers, id) <= 1;
        if id == armed {
          assert Pending(r.timers, id) == Pending(m.timers, id) - 1;
        } else {
          assert Added(r.log, id) == Added(m.log, id);
        }
      }
    }
  }

  lemma CaptureKeepsInv(m: Module, before: bool, n: nat, rms: real, buffer: seq<byte>)
    requires Inv(m)
    ensures Inv(CaptureStep(m, before, n, rms, buffer))
  {
    if !Discards(m, before, n) {
      var cv := Smooth(m.currentVolume, rms);
      var bg := NextBackground(m.backgroundVolume, rms);
      var m1 := m.(currentVolume := cv, backgroundVolume := bg);
      assert Inv(m1);
      var m2 := if m.vad && m1.input.None? && Onset(cv - bg) then StartRecording(m1, MinDuration) else m1;
      StartRecordingKeepsInv(m1, MinDuration);
      assert Inv(m2);
      if m2.input.Some? && !m2.input.value.final {
        var m3 := m2.(input := Some(Write(m2.input.value, buffer)));
        assert Inv(m3);
        StopRecordingKeepsInv(m3);
      }
    }
  }

  lemma TriggerKeepsInv(m: Module, vars: set<string>, name: string, best: Option<Value>)
    requires Inv(m)
    ensures Inv(Trigger(m, vars, name, best))
  {
    var r := Trigger(m, vars, name, best);
    assert r.log == m.log && r.timers == m.timers;
  }

  lemma PlayerOpensKeepsInv(m: Module, ok: bool)
    requires Inv(m)
    ensures Inv(PlayerOpens(m, ok))
  {
    var r := PlayerOpens(m, ok);
    assert r.timers == m.timers;
    forall id: nat ensures Added(r.log, id) + Pending(r.timers, id) <= 1 {
      assert Added(r.log, id) == Added(m.log, id);
    }
  }

  lemma PlayerReadsKeepsInv(m: Module, n: int)
    requires Inv(m)
    ensures Inv(PlayerReads(m, n))
  {
    var r := PlayerReads(m, n);
    assert r.log == m.log && r.timers == m.timers;
  }

  lemma FinishPlayerKeepsInv(m: Module)
    requires Inv(m)
    ensures Inv(FinishPlayer(m))
  {
    var r := FinishPlayer(m);
    forall id: nat ensures Added(r.log, id) + Pending(r.timers, id) <= 1 {
      assert Added(r.log, id) == Added(m.log, id);
    }
  }

  lemma StepKeepsInv(m: Module, e: Event)
    requires Inv(m)
    ensures Inv(Step(m, e))
  {
    match e
    case StartModule =>
    case PauseModule(p) =>
    case SetVad(on) =>
    case StartRecordingCall(d) => StartRecordingKeepsInv(m, d);
    case StopRecordingCall => StopRecordingKeepsInv(m);
    case CommitTimer(i) => CommitTimerKeepsInv(m, i);
    case Capture(before, n, rms, buffer) => CaptureKeepsInv(m, before, n, rms, buffer);
    case TriggerCall(vars, name, best) => TriggerKeepsInv(m, vars, name, best);
    case PlayerOpen(ok) => PlayerOpensKeepsInv(m, ok);
    case PlayerRead(n) => PlayerReadsKeepsInv(m, n);
    case PlayerDrained => FinishPlayerKeepsInv(m);
  }

  lemma {:induction false} RunKeepsInv(m: Module, es: seq<Event>)
    requires Inv(m)
    ensures Inv(Run(m, es))
    decreases |es|
  {
    if es != [] {
      StepKeepsInv(m, es[0]);
      RunKeepsInv(Step(m, es[0]), es[1..]);
    }
  }

  /** Every recording reaches the dialogue state at most once, whatever the interleaving. */
  lemma AddedAtMostOnce(es: seq<Event>, id: nat)
    ensures Added(Run(Init(), es).log, id) <= 1
  {
    InitSatisfiesInv();
    RunKeepsInv(Init(), es);
  }

  /**
    A recording still open when its own deferred commit fires is added then,
    and that is its only addition.
   */
  lemma OpenAtOwnTimerAddedOnce(m: Module, i: nat)
    requires Inv(m)
    requires i < |m.timers| && m.timers[i] == m.recordings && m.input.Some?
    ensures Added(CommitTimerFires(m, i).log, m.recordings) == 1
  {
    assert m.timers[i] in multiset(m.timers);
    assert Added(m.log, m.recordings) + Pending(m.timers, m.recordings) <= 1;
  }

  /**
    While an output is assigned, a trigger starts no player: the player
    owning the output stays the only one reading it.
   */
  lemma TriggerNeverStartsSecondPlayer(m: Module, vars: set<string>, name: string, best: Option<Value>)
    requires m.output.Some?
    ensures Trigger(m, vars, name, best).players == m.players
    ensures Trigger(m, vars, name, best).player == m.player
    ensures Trigger(m, vars, name, best).output.Some?
  {
  }

  /**
    While an output is assigned, the capture loop discards every buffer, so
    the detector never opens a recording during playback: barge-in needs an
    input that already exists or is opened by a direct `startRecording` call.
   */
  lemma {:induction false} CaptureIgnoredDuringPlayback(m: Module, es: seq<Event>)
    requires m.output.Some?
    requires forall k :: 0 <= k < |es| ==> es[k].Capture?
    ensures Run(m, es) == m
    decreases |es|
  {
    if es != [] {
      var e := es[0];
      assert Step(m, e) == CaptureStep(m, e.outputBefore, e.bytesRead, e.rms, e.buffer);
      CaptureIgnoredDuringPlayback(m, es[1..]);
    }
  }

  /** A system utterance for the trigger events below. */
  function SpeechArrival(name: string, v: Speech): Event {
    TriggerCall({name}, name, Some(SpeechValue(v)))
  }

  /** The bytes of several utterances, one after the other. */
  function Joined(vs: seq<Speech>): seq<byte>
    decreases |vs|
  {
    if vs == [] then [] else vs[0].data + Joined(vs[1..])
  }

  /**
    System utterances arriving while an output is assigned all join that one
    output, in order of arrival, and no player is started for them.
   */
  lemma {:induction false} ArrivalsJoinPlayingOutput(m: Module, name: string, vs: seq<Speech>)
    requires m.output.Some?
    ensures var r := Run(m, seq(|vs|, k requires 0 <= k < |vs| => SpeechArrival(name, vs[k])));
            && r.output.Some?
            && r.output.value.data == m.output.value.data + Joined(vs)
            && r.players == m.players && r.player == m.player
            && (|vs| > 0 ==> (r.output.value.final <==> vs[|vs| - 1].final))
            && r.log == m.log && r.input == m.input
    decreases |vs|
  {
    var es := seq(|vs|, k requires 0 <= k < |vs| => SpeechArrival(name, vs[k]));
    if vs != [] {
      var m1 := Step(m, es[0]);
      assert m1.output.value.data == m.output.value.data + vs[0].data;
      var rest := seq(|vs[1..]|, k requires 0 <= k < |vs[1..]| => SpeechArrival(name, vs[1..][k]));
      assert es[1..] == rest;
      ArrivalsJoinPlayingOutput(m1, name, vs[1..]);
      assert Run(m, es) == Run(m1, rest);
      assert m.output.value.data + Joined(vs)
          == (m.output.value.data + vs[0].data) + Joined(vs[1..]);
      if |vs| == 1 {
        assert rest == [];
      } else {
        assert vs[1..][|vs[1..]| - 1] == vs[|vs| - 1];
      }
    }
  }

  /**
    A player that has left its loop has cleared the output but is still
    draining its line: a trigger in that window starts a second player, and
    when the first one finishes it removes the system speech that the new
    player is about to play.
   */
  lemma DrainWindowStartsSecondPlayer(v1: Speech, v2: Speech)
    ensures var playing := PlayerOpens(Trigger(Start(Init()), {"s_m"}, "s_m", Some(SpeechValue(v1))), true);
            var released := PlayerReads(playing, -1);
            var second := Trigger(released, {"s_m"}, "s_m", Some(SpeechValue(v2)));
            && released.output.None? && released.draining == 1
            && second.players == 2 && second.draining == 1 && SystemRemovals(second.log) == 0
            && FinishPlayer(second).output == Some(v2)
            && FinishPlayer(second).log == [RemoveSystemSpeech]
  {
  }

  /**
    A recording no longer current (stopped, or replaced by a newer one) that
    has not been added by then is never added afterwards: once finalised
    before its deferred commit fires, it stays out of the dialogue state.
   */
  ghost predicate Closed(m: Module, id: nat) {
    id < m.recordings || (id == m.recordings && m.input.None?)
  }

  lemma CaptureKeepsClosedUnadded(m: Module, before: bool, n: nat, rms: real, buffer: seq<byte>, id: nat)
    requires Inv(m) && Closed(m, id) && Added(m.log, id) == 0
    ensures var r := CaptureStep(m, before, n, rms, buffer);
            Closed(r, id) && Added(r.log, id) == 0
  {
    if !Discards(m, before, n) {
      var cv := Smooth(m.currentVolume, rms);
      var bg := NextBackground(m.backgroundVolume, rms);
      var m1 := m.(currentVolume := cv, backgroundVolume := bg);
      var m2 := if m.vad && m1.input.None? && Onset(cv - bg) then StartRecording(m1, MinDuration) else m1;
      assert Closed(m2, id) && Added(m2.log, id) == 0;
    }
  }

  lemma StepKeepsClosedUnadded(m: Module, e: Event, id: nat)
    requires Inv(m) && Closed(m, id) && Added(m.log, id) == 0
    ensures Closed(Step(m, e), id) && Added(Step(m, e).log, id) == 0
  {
    match e
    case CommitTimer(i) =>
    case Capture(before, n, rms, buffer) => CaptureKeepsClosedUnadded(m, before, n, rms, buffer, id);
    case _ =>
  }

  lemma {:induction false} ClosedStaysUnadded(m: Module, es: seq<Event>, id: nat)
    requires Inv(m) && Closed(m, id) && Added(m.log, id) == 0
    ensures Added(Run(m, es).log, id) == 0
    decreases |es|
  {
    if es != [] {
      StepKeepsClosedUnadded(m, es[0], id);
      StepKeepsInv(m, es[0]);
      ClosedStaysUnadded(Step(m, es[0]), es[1..], id);
    }
  }

  /** A recording stopped before any commit of it is never added, whatever follows. */
  lemma StoppedBeforeCommitNeverAdded(m: Module, es: seq<Event>)
    requires Inv(m) && m.input.Some? && Added(m.log, m.recordings) == 0
    ensures Added(Run(StopRecording(m), es).log, m.recordings) == 0
  {
    StopRecordingKeepsInv(m);
    ClosedStaysUnadded(StopRecording(m), es, m.recordings);
  }

  /**
    Every started player removes the system-speech variable exactly once,
    when it has finished; only the player owning the output and those still
    draining have not removed it yet.
   */
  lemma SystemSpeechRemovedOncePerPlayer(es: seq<Event>)
    ensures var m := Run(Init(), es);
            SystemRemovals(m.log) == m.players - m.draining - (if m.player == Idle then 0 else 1)
  {
    InitSatisfiesInv();
    RunKeepsInv(Init(), es);
  }

  /**
    With the corrected failure path, an output is never left behind without a
    player to play it, so capture is never blocked for good.
   */
  lemma NoOrphanedOutput(es: seq<Event>)
    ensures Run(Init(), es).player == Idle ==> Run(Init(), es).output.None?
  {
    InitSatisfiesInv();
    RunKeepsInv(Init(), es);
  }
}
