/**
 * The transport of the player page (play, pause, seek, volume, file load and
 * the time tick) as a state machine over one value `PlayerState`.
 *
 * The Web Audio graph is abstract: source nodes are numbered in creation
 * order, `started[k]` is the buffer offset the k-th node was started at, and
 * `stopped` holds the nodes on which `stop()` and `disconnect()` were called.
 * The audio context's clock is the parameter `now`. Each function below is
 * one handler of the page; the class in module PlayerPage runs the same
 * handlers step by step on its fields and is proved equal to them.
 */
module Playback {
  import opened Wrappers

  type SourceId = nat

  /** A decoded audio buffer; the player uses only its length in seconds. */
  datatype AudioBuffer = AudioBuffer(duration: real)

  /** What reading and decoding a dropped file gives: a buffer, or an error caught by the handler. */
  datatype DecodeOutcome = Decoded(buffer: AudioBuffer) | DecodeFailed

  /** The gain of a newly created gain node. */
  const DefaultGain: real := 1.0

  datatype PlayerState = PlayerState(
    hasContext: bool,             // the audio context (and with it the analyser) exists
    gain: Option<real>,           // the gain node's gain value, when the node exists
    buffer: Option<AudioBuffer>,  // the decoded buffer of the last file that decoded
    source: Option<SourceId>,     // the current source node
    started: seq<real>,           // offset given to start() of every source node created so far
    stopped: set<SourceId>,       // nodes that were stopped and disconnected
    startTime: real,              // context time at which offset 0 of the buffer would have played
    isPlaying: bool,
    currentTime: real,
    duration: real,
    volume: real,
    ticking: bool,                // a time-update callback is scheduled
    fileName: string)

  /** The page's state before any interaction. */
  const Initial: PlayerState :=
    PlayerState(false, None, None, None, [], {}, 0.0, false, 0.0, 0.0, 1.0, false, "")

  /** Source nodes created and not yet stopped. */
  function Active(s: PlayerState): set<SourceId> {
    set id: nat | id < |s.started| && id !in s.stopped
  }

  /** The invariant of the page: at most one live source, and it is the current one. */
  predicate Valid(s: PlayerState) {
    && (s.gain.Some? <==> s.hasContext)
    && (s.buffer.Some? ==> s.hasContext)
    && (|s.started| > 0 ==> s.hasContext)
    && (forall id :: id in s.stopped ==> id < |s.started|)
    && (forall id :: id in Active(s) ==> s.source == Some(id))
    && (s.source.Some? ==> s.source.value in Active(s))
  }

  // ---------------------------------------------------------------------
  // The handlers
  // ---------------------------------------------------------------------

  /** setupAudioNodes: creates the context, analyser and gain node the first time. */
  function SetupAudioNodes(s: PlayerState): PlayerState {
    s.(hasContext := true, gain := if s.gain.Some? then s.gain else Some(DefaultGain))
  }

  /** `sourceNodeRef.current?.stop()` and `?.disconnect()`: nothing happens without a source. */
  function ReleaseSource(s: PlayerState): PlayerState {
    match s.source
    case None => s
    case Some(id) => s.(stopped := s.stopped + {id})
  }

  function StopCurrentAudio(s: PlayerState): PlayerState {
    ReleaseSource(s).(source := None, isPlaying := false, currentTime := 0.0)
  }

  /** Seconds of the buffer played by the clock `now`. */
  function Elapsed(s: PlayerState, now: real): real {
    now - s.startTime
  }

  /** The body of the time-update callback, without its rescheduling. */
  function UpdateTime(s: PlayerState, now: real): PlayerState {
    if !s.hasContext then s
    else if Elapsed(s, now) < s.duration then s.(currentTime := Elapsed(s, now))
    else s.(isPlaying := false, currentTime := s.duration)
  }

  /** Whether the time-update callback schedules itself again. */
  predicate Reschedules(s: PlayerState, now: real) {
    s.hasContext && Elapsed(s, now) < s.duration
  }

  /** One animation frame of the time-update loop: the pending callback, if any, runs at `now`. */
  function Tick(s: PlayerState, now: real): PlayerState {
    if !s.ticking then s else UpdateTime(s, now).(ticking := Reschedules(s, now))
  }

  /**
   * What play does once past its guard: set up the graph, stop the old
   * source, start a fresh one at `startAt` with the volume `vol`, and run
   * the first time update at once.
   */
  function InstallSource(s: PlayerState, vol: real, startAt: real, now: real): PlayerState {
    var s2 := StartSource(ReleaseSource(SetupAudioNodes(s)), vol, startAt, now);
    UpdateTime(s2, now).(ticking := s2.ticking || Reschedules(s2, now))
  }

  /** Creates the next source node, applies the volume `vol`, starts it at `startAt` and marks playing. */
  function StartSource(s: PlayerState, vol: real, startAt: real, now: real): PlayerState {
    s.(source := Some(|s.started|), started := s.started + [startAt],
       gain := if s.gain.Some? then Some(vol) else s.gain,
       startTime := now - startAt, isPlaying := true)
  }

  /**
   * playAudio as run by a closure that captured `vol` as the page's volume.
   * A handler of the current render captures the current volume (`PlayAudio`);
   * the completion of a file load runs the closure of the render in which the
   * file was dropped.
   */
  function PlayAudioWith(s: PlayerState, vol: real, startAt: real, now: real): PlayerState {
    if !s.hasContext || s.buffer.None? then s else InstallSource(s, vol, startAt, now)
  }

  function PlayAudio(s: PlayerState, startAt: real, now: real): PlayerState {
    PlayAudioWith(s, s.volume, startAt, now)
  }

  function TogglePlayPause(s: PlayerState, now: real): PlayerState {
    if s.isPlaying then StopCurrentAudio(s) else PlayAudio(s, s.currentTime, now)
  }

  function HandleTimeChange(s: PlayerState, v: real, now: real): PlayerState {
    var s1 := s.(currentTime := v);
    if s1.buffer.Some? then PlayAudio(s1, v, now) else s1
  }

  function HandleVolumeChange(s: PlayerState, v: real): PlayerState {
    s.(volume := v, gain := if s.gain.Some? then Some(v) else None)
  }

  /**
   * handleAudioFile up to its first `await`: stop, show the new name, set up
   * the graph. The page stays interactive while the file is read and decoded.
   */
  function BeginAudioFile(s: PlayerState, name: string): PlayerState {
    SetupAudioNodes(StopCurrentAudio(s).(fileName := name))
  }

  /**
   * handleAudioFile after its `await`s: a rejected read or decode is caught
   * and changes nothing; a decoded buffer is stored with its duration and
   * played from 0 by the `playAudio` of the drop's render, whose volume was `vol`.
   */
  function CompleteAudioFile(s: PlayerState, outcome: DecodeOutcome, vol: real, now: real): PlayerState {
    match outcome
    case DecodeFailed => s
    case Decoded(b) => PlayAudioWith(s.(buffer := Some(b), duration := b.duration), vol, 0.0, now)
  }

  /** handleAudioFile when nothing else runs while the file is decoded. */
  function HandleAudioFile(s: PlayerState, name: string, outcome: DecodeOutcome, now: real): PlayerState {
    CompleteAudioFile(BeginAudioFile(s, name), outcome, s.volume, now)
  }

  // ---------------------------------------------------------------------
  // Properties
  // ---------------------------------------------------------------------

  lemma InitialValid()
    ensures Valid(Initial) && Active(Initial) == {}
  {
  }

  /** At most one source node is live, and it is the one the page holds. */
  lemma ActiveAtMostOne(s: PlayerState)
    requires Valid(s)
    ensures Active(s) == if s.source.Some? then {s.source.value} else {}
    ensures |Active(s)| <= 1
  {
    if s.source.Some? {
      forall id | id in Active(s) ensures id == s.source.value { }
    } else {
      forall id | id in Active(s) ensures false { }
    }
  }

  /** Stop leaves no live source, sets not playing at time 0, and creates or forgets nothing. */
  lemma StopCurrentAudioReleases(s: PlayerState)
    requires Valid(s)
    ensures var r := StopCurrentAudio(s);
      && Valid(r) && Active(r) == {} && r.source == None
      && !r.isPlaying && r.currentTime == 0.0
      && r.started == s.started && r.stopped == s.stopped + Active(s)
      && r.buffer == s.buffer && r.duration == s.duration && r.volume == s.volume
      && r.gain == s.gain && r.ticking == s.ticking && r.startTime == s.startTime
  {
    ActiveAtMostOne(s);
    var r := StopCurrentAudio(s);
    forall id | id in Active(r) ensures false { }
  }

  /** Stopping twice is the same as stopping once. */
  lemma StopIdempotent(s: PlayerState)
    ensures StopCurrentAudio(StopCurrentAudio(s)) == StopCurrentAudio(s)
  {
  }

  /** Without an audio context or a decoded buffer, play does nothing. */
  lemma PlayAudioNeedsContextAndBuffer(s: PlayerState, startAt: real, now: real)
    requires !s.hasContext || s.buffer.None?
    ensures PlayAudio(s, startAt, now) == s
  {
  }

  /**
   * Play stops the previous source before creating a fresh one: afterwards the
   * new node is the only live one, every earlier node is stopped, and the
   * stored volume is applied to the gain.
   */
  lemma PlayAudioInstallsFreshSource(s: PlayerState, startAt: real, now: real)
    requires Valid(s) && s.hasContext && s.buffer.Some?
    ensures var r := PlayAudio(s, startAt, now); var n := |s.started|;
      && Valid(r)
      && r.source == Some(n) && Active(r) == {n}
      && r.started == s.started + [startAt]
      && (forall id :: 0 <= id < n ==> id in r.stopped)
      && r.gain == Some(s.volume) && r.volume == s.volume
      && r.buffer == s.buffer && r.duration == s.duration
  {
    PlayAudioWithInstallsFreshSource(s, s.volume, startAt, now);
  }

  /** The same for a play whose closure captured the volume `vol`: the gain becomes `vol`. */
  lemma PlayAudioWithInstallsFreshSource(s: PlayerState, vol: real, startAt: real, now: real)
    requires Valid(s) && s.hasContext && s.buffer.Some?
    ensures var r := PlayAudioWith(s, vol, startAt, now); var n := |s.started|;
      && Valid(r)
      && r.source == Some(n) && Active(r) == {n}
      && r.started == s.started + [startAt]
      && (forall id :: 0 <= id < n ==> id in r.stopped)
      && r.gain == Some(vol) && r.volume == s.volume
      && r.buffer == s.buffer && r.duration == s.duration
  {
    ActiveAtMostOne(s);
    var r := PlayAudioWith(s, vol, startAt, now);
    var n := |s.started|;
    forall id: nat | id < n ensures id in r.stopped {
      if id !in s.stopped {
        assert id in Active(s);
      }
    }
    assert n in Active(r);
    forall id | id in Active(r) ensures id == n { }
  }

  /**
   * Play measures time from the offset: at the same instant the elapsed time is
   * `startAt`, and the immediate time update keeps playing only when the
   * offset lies before the end of the track.
   */
  lemma PlayAudioStartsAtOffset(s: PlayerState, startAt: real, now: real)
    requires s.hasContext && s.buffer.Some?
    ensures var r := PlayAudio(s, startAt, now);
      && r.startTime == now - startAt
      && Elapsed(r, now) == startAt
      && r.isPlaying == (startAt < s.duration)
      && r.currentTime == (if startAt < s.duration then startAt else s.duration)
      && r.ticking == (s.ticking || startAt < s.duration)
  {
  }

  /** A tick before the end of the track shows the elapsed time and changes nothing else. */
  lemma TickBeforeEnd(s: PlayerState, now: real)
    requires s.ticking && s.hasContext && Elapsed(s, now) < s.duration
    ensures Tick(s, now) == s.(currentTime := Elapsed(s, now))
  {
  }

  /** The tick that reaches the end clamps the time to the duration exactly and stops the loop. */
  lemma TickAtEnd(s: PlayerState, now: real)
    requires s.ticking && s.hasContext && Elapsed(s, now) >= s.duration
    ensures var r := Tick(s, now);
      r.currentTime == s.duration && !r.isPlaying && !r.ticking
      && r.source == s.source && r.stopped == s.stopped && r.started == s.started
  {
  }

  /** Ticks never start, stop or forget a source node. */
  lemma TickPreservesValid(s: PlayerState, now: real)
    requires Valid(s)
    ensures Valid(Tick(s, now)) && Active(Tick(s, now)) == Active(s)
  {
  }

  /**
   * Resuming or seeking to `x` and ticking later shows `x` plus the time
   * passed, capped at the duration: never a time before `x`.
   */
  lemma ResumeFromOffset(s: PlayerState, x: real, now: real, later: real)
    requires s.hasContext && s.buffer.Some? && x < s.duration && now <= later
    ensures var r := Tick(PlayAudio(s, x, now), later);
      && r.currentTime == (if x + (later - now) < s.duration then x + (later - now) else s.duration)
      && x <= r.currentTime
  {
    PlayAudioStartsAtOffset(s, x, now);
  }

  /**
   * The time-update loop is not cancelled by a stop: after a pause, a pending
   * tick overwrites the time 0 that the stop set with the clock's elapsed time.
   */
  lemma TickAfterStopOverwritesTime(s: PlayerState, now: real)
    requires s.ticking && s.hasContext && 0.0 < Elapsed(s, now) < s.duration
    ensures var r := Tick(StopCurrentAudio(s), now);
      r.currentTime == Elapsed(s, now) && r.currentTime != 0.0 && r.ticking && !r.isPlaying
  {
  }

  /**
   * Stop sets the time to 0, so pausing and toggling again without a tick in
   * between restarts the track from offset 0 rather than from the pause point.
   */
  lemma PauseThenPlayRestartsAtZero(s: PlayerState, t1: real, t2: real)
    requires Valid(s) && s.isPlaying && s.hasContext && s.buffer.Some?
    ensures var r := TogglePlayPause(TogglePlayPause(s, t1), t2);
      r.started == s.started + [0.0] && Elapsed(r, t2) == 0.0
  {
  }

  /** Toggling when playing stops; otherwise it plays from the time shown. */
  lemma TogglePlayPauseEffect(s: PlayerState, now: real)
    requires Valid(s)
    ensures var r := TogglePlayPause(s, now);
      && Valid(r)
      && (s.isPlaying ==> Active(r) == {} && !r.isPlaying && r.currentTime == 0.0)
      && (!s.isPlaying && s.hasContext && s.buffer.Some? ==>
            Active(r) == {|s.started|} && r.started == s.started + [s.currentTime]
            && Elapsed(r, now) == s.currentTime)
      && (!s.isPlaying && (!s.hasContext || s.buffer.None?) ==> r == s)
  {
    if s.isPlaying {
      StopCurrentAudioReleases(s);
    } else if s.hasContext && s.buffer.Some? {
      PlayAudioInstallsFreshSource(s, s.currentTime, now);
    }
  }

  /** Seeking shows `v`; with a buffer it restarts playback from `v`, without one nothing else changes. */
  lemma HandleTimeChangeEffect(s: PlayerState, v: real, now: real)
    requires Valid(s)
    ensures var r := HandleTimeChange(s, v, now);
      && Valid(r)
      && (s.buffer.None? ==> r == s.(currentTime := v))
      && (s.buffer.Some? ==>
            r.started == s.started + [v] && Active(r) == {|s.started|} && Elapsed(r, now) == v
            && r.currentTime == (if v < s.duration then v else s.duration))
  {
    if s.buffer.Some? {
      PlayAudioInstallsFreshSource(s.(currentTime := v), v, now);
    }
  }

  /** A volume change sets the volume and the gain at once and touches nothing else. */
  lemma HandleVolumeChangeEffect(s: PlayerState, v: real)
    requires Valid(s)
    ensures var r := HandleVolumeChange(s, v);
      && Valid(r) && r.volume == v
      && r.gain == (if s.hasContext then Some(v) else None)
      && r.(volume := s.volume, gain := s.gain) == s
  {
  }

  /** The volume set while paused is the gain of the next playback. */
  lemma VolumeAppliedOnPlay(s: PlayerState, v: real, startAt: real, now: real)
    requires s.hasContext && s.buffer.Some?
    ensures PlayAudio(HandleVolumeChange(s, v), startAt, now).gain == Some(v)
  {
  }

  /**
   * Loading a file stops the old source first. A decode failure leaves the
   * page stopped with the new name but the previous buffer; a success plays
   * the new buffer from 0 on a fresh, sole live source.
   */
  lemma HandleAudioFileEffect(s: PlayerState, name: string, outcome: DecodeOutcome, now: real)
    requires Valid(s)
    ensures var r := HandleAudioFile(s, name, outcome, now);
      && Valid(r) && r.fileName == name && r.hasContext
      && (outcome.DecodeFailed? ==>
            Active(r) == {} && r.buffer == s.buffer && r.duration == s.duration
            && !r.isPlaying && r.currentTime == 0.0 && r.started == s.started)
      && (outcome.Decoded? ==>
            r.buffer == Some(outcome.buffer) && r.duration == outcome.buffer.duration
            && r.started == s.started + [0.0] && Active(r) == {|s.started|}
            && (forall id :: 0 <= id < |s.started| ==> id in r.stopped)
            && r.isPlaying == (0.0 < outcome.buffer.duration))
  {
    BeginAudioFileEffect(s, name);
    CompleteAudioFileEffect(BeginAudioFile(s, name), outcome, s.volume, now);
  }

  /**
   * The first step of a load: the old source is stopped and the new name
   * shown, but the previous buffer and duration stay loaded until the decode
   * completes.
   */
  lemma BeginAudioFileEffect(s: PlayerState, name: string)
    requires Valid(s)
    ensures var r := BeginAudioFile(s, name);
      && Valid(r) && r.hasContext && r.fileName == name
      && Active(r) == {} && r.source == None && !r.isPlaying && r.currentTime == 0.0
      && r.buffer == s.buffer && r.duration == s.duration && r.volume == s.volume
      && r.started == s.started
  {
    StopCurrentAudioReleases(s);
  }

  /**
   * The second step of a load, from any valid state with an audio context: a
   * failure changes nothing; a decoded buffer becomes the buffer and duration
   * and plays from 0 on a sole fresh source, with the captured volume as gain.
   */
  lemma CompleteAudioFileEffect(s: PlayerState, outcome: DecodeOutcome, vol: real, now: real)
    requires Valid(s) && s.hasContext
    ensures var r := CompleteAudioFile(s, outcome, vol, now);
      && Valid(r)
      && (outcome.DecodeFailed? ==> r == s)
      && (outcome.Decoded? ==>
            r.buffer == Some(outcome.buffer) && r.duration == outcome.buffer.duration
            && r.started == s.started + [0.0] && Active(r) == {|s.started|}
            && (forall id :: 0 <= id < |s.started| ==> id in r.stopped)
            && r.isPlaying == (0.0 < outcome.buffer.duration)
            && r.gain == Some(vol) && r.volume == s.volume && r.fileName == s.fileName)
  {
    if outcome.Decoded? {
      var b := outcome.buffer;
      PlayAudioWithInstallsFreshSource(s.(buffer := Some(b), duration := b.duration), vol, 0.0, now);
    }
  }

  /** A toggle while a new file is decoding plays the previous buffer from 0 under the new name. */
  lemma ToggleDuringDecodeReplaysOldBuffer(s: PlayerState, name: string, now: real)
    requires Valid(s) && s.buffer.Some?
    ensures var r := TogglePlayPause(BeginAudioFile(s, name), now);
      && r.buffer == s.buffer && r.fileName == name
      && r.started == s.started + [0.0] && Active(r) == {|s.started|}
  {
    BeginAudioFileEffect(s, name);
    PlayAudioInstallsFreshSource(BeginAudioFile(s, name), 0.0, now);
  }

  /**
   * A volume change while a file is decoding is set on the gain at once, but
   * the completing play re-applies the volume captured at the drop: afterwards
   * the gain and the shown volume differ.
   */
  lemma VolumeDuringDecodeOverwritten(s: PlayerState, name: string, v: real, b: AudioBuffer, now: real)
    requires Valid(s)
    ensures var r := CompleteAudioFile(HandleVolumeChange(BeginAudioFile(s, name), v), Decoded(b), s.volume, now);
      r.gain == Some(s.volume) && r.volume == v
  {
  }

  /**
   * Two drops whose decodes finish in the opposite order: the name shown is
   * the second file's, the buffer playing is the first file's, and only its
   * source is live.
   */
  lemma DecodesOutOfOrder(s: PlayerState, a: AudioBuffer, b: AudioBuffer, vol: real, t1: real, t2: real)
    requires Valid(s)
    ensures var r := CompleteAudioFile(
              CompleteAudioFile(BeginAudioFile(BeginAudioFile(s, "a"), "b"), Decoded(b), vol, t1),
              Decoded(a), vol, t2);
      && r.fileName == "b" && r.buffer == Some(a)
      && Active(r) == {|s.started| + 1} && r.started == s.started + [0.0, 0.0]
  {
    var m := BeginAudioFile(BeginAudioFile(s, "a"), "b");
    BeginAudioFileEffect(s, "a");
    BeginAudioFileEffect(BeginAudioFile(s, "a"), "b");
    CompleteAudioFileEffect(m, Decoded(b), vol, t1);
    CompleteAudioFileEffect(CompleteAudioFile(m, Decoded(b), vol, t1), Decoded(a), vol, t2);
  }

  /** Loading one file after another leaves only the second file's source live. */
  lemma LoadTwiceKeepsOneSource(s: PlayerState, a: AudioBuffer, b: AudioBuffer, t1: real, t2: real)
    requires Valid(s)
    ensures var r := HandleAudioFile(HandleAudioFile(s, "a", Decoded(a), t1), "b", Decoded(b), t2);
      && Active(r) == {|s.started| + 1} && r.source == Some(|s.started| + 1)
      && (forall id :: 0 <= id <= |s.started| ==> id in r.stopped)
      && r.buffer == Some(b)
  {
    var m := HandleAudioFile(s, "a", Decoded(a), t1);
    HandleAudioFileEffect(s, "a", Decoded(a), t1);
    HandleAudioFileEffect(m, "b", Decoded(b), t2);
    ActiveAtMostOne(HandleAudioFile(m, "b", Decoded(b), t2));
  }
}
