/**
 * The player page's refs and React state as the fields of one object; each
 * handler mutates them in the order the page does, and its postcondition
 * equates the new state with the corresponding function of module Playback,
 * whose lemmas state what the handlers promise.
 */
module PlayerPage {
  import opened Wrappers
  import opened Playback

  class Player {
    var hasContext: bool
    var gain: Option<real>
    var buffer: Option<AudioBuffer>
    var source: Option<SourceId>
    var started: seq<real>
    var stopped: set<SourceId>
    var startTime: real
    var isPlaying: bool
    var currentTime: real
    var duration: real
    var volume: real
    var ticking: bool
    var fileName: string

    /** The abstract state held in the fields. */
    function State(): PlayerState
      reads this
    {
      PlayerState(hasContext, gain, buffer, source, started, stopped, startTime,
                  isPlaying, currentTime, duration, volume, ticking, fileName)
    }

    predicate Valid()
      reads this
    {
      Playback.Valid(State())
    }

    constructor ()
      ensures Valid() && State() == Initial
    {
      hasContext, gain, buffer, source := false, None, None, None;
      started, stopped, startTime := [], {}, 0.0;
      isPlaying, currentTime, duration, volume := false, 0.0, 0.0, 1.0;
      ticking, fileName := false, "";
    }

    method SetupAudioNodes()
      modifies this
      ensures State() == Playback.SetupAudioNodes(old(State()))
    {
      hasContext := true;
      if gain.None? {
        gain := Some(DefaultGain);
      }
    }

    method StopCurrentAudio()
      requires Valid()
      modifies this
      ensures Valid()
      ensures State() == Playback.StopCurrentAudio(old(State()))
    {
      StopCurrentAudioReleases(State());
      ReleaseSource();
      source := None;
      isPlaying := false;
      currentTime := 0.0;
    }

    /** One run of the time-update callback; `rescheduled` says whether it asked for another frame. */
    method RunUpdateTime(now: real) returns (rescheduled: bool)
      modifies this
      ensures State() == Playback.UpdateTime(old(State()), now)
      ensures rescheduled == Reschedules(old(State()), now)
    {
      if !hasContext {
        return false;
      }
      var elapsed := now - startTime;
      currentTime := elapsed;
      if elapsed < duration {
        rescheduled := true;
      } else {
        isPlaying := false;
        currentTime := duration;
        rescheduled := false;
      }
    }

    /** The animation frame at clock `now` runs the pending time update, if there is one. */
    method Tick(now: real)
      requires Valid()
      modifies this
      ensures Valid()
      ensures State() == Playback.Tick(old(State()), now)
    {
      TickPreservesValid(State(), now);
      if ticking {
        ticking := RunUpdateTime(now);
      }
    }

    method ReleaseSource()
      modifies this
      ensures State() == Playback.ReleaseSource(old(State()))
    {
      if source.Some? {
        stopped := stopped + {source.value};
      }
    }

    method StartSource(vol: real, startAt: real, now: real)
      modifies this
      ensures State() == Playback.StartSource(old(State()), vol, startAt, now)
    {
      var node := |started|;
      started := started + [startAt];
      source := Some(node);
      if gain.Some? {
        gain := Some(vol);
      }
      startTime := now - startAt;
      isPlaying := true;
    }

    /** The part of play after its guard. */
    method InstallSource(vol: real, startAt: real, now: real)
      modifies this
      ensures State() == Playback.InstallSource(old(State()), vol, startAt, now)
    {
      SetupAudioNodes();
      ReleaseSource();
      StartSource(vol, startAt, now);
      var rescheduled := RunUpdateTime(now);
      ticking := ticking || rescheduled;
    }

    /** playAudio as run by a closure that captured `vol` as the volume. */
    method PlayAudioWith(vol: real, startAt: real, now: real)
      requires Valid()
      modifies this
      ensures Valid()
      ensures State() == Playback.PlayAudioWith(old(State()), vol, startAt, now)
    {
      if !hasContext || buffer.None? {
        return;
      }
      PlayAudioWithInstallsFreshSource(State(), vol, startAt, now);
      InstallSource(vol, startAt, now);
    }

    method PlayAudio(startAt: real, now: real)
      requires Valid()
      modifies this
      ensures Valid()
      ensures State() == Playback.PlayAudio(old(State()), startAt, now)
    {
      PlayAudioWith(volume, startAt, now);
    }

    method TogglePlayPause(now: real)
      requires Valid()
      modifies this
      ensures Valid()
      ensures State() == Playback.TogglePlayPause(old(State()), now)
    {
      if isPlaying {
        StopCurrentAudio();
      } else {
        PlayAudio(currentTime, now);
      }
    }

    method HandleTimeChange(v: real, now: real)
      requires Valid()
      modifies this
      ensures Valid()
      ensures State() == Playback.HandleTimeChange(old(State()), v, now)
    {
      currentTime := v;
      if buffer.Some? {
        PlayAudio(v, now);
      }
    }

    method HandleVolumeChange(v: real)
      requires Valid()
      modifies this
      ensures Valid()
      ensures State() == Playback.HandleVolumeChange(old(State()), v)
    {
      volume := v;
      if gain.Some? {
        gain := Some(v);
      }
    }

    /** handleAudioFile up to its first `await`. */
    method BeginAudioFile(name: string)
      requires Valid()
      modifies this
      ensures Valid()
      ensures State() == Playback.BeginAudioFile(old(State()), name)
    {
      BeginAudioFileEffect(State(), name);
      StopCurrentAudio();
      fileName := name;
      SetupAudioNodes();
    }

    /**
     * handleAudioFile after its `await`s, with the decode's outcome and the
     * volume the drop's render captured; other handlers may have run between
     * the two steps.
     */
    method CompleteAudioFile(outcome: DecodeOutcome, vol: real, now: real)
      requires Valid() && hasContext
      modifies this
      ensures Valid()
      ensures State() == Playback.CompleteAudioFile(old(State()), outcome, vol, now)
    {
      match outcome {
        case DecodeFailed =>
        case Decoded(b) =>
          buffer := Some(b);
          duration := b.duration;
          PlayAudioWith(vol, 0.0, now);
      }
    }

    /** A whole load with nothing else running during the decode. */
    method HandleAudioFile(name: string, outcome: DecodeOutcome, now: real)
      requires Valid()
      modifies this
      ensures Valid()
      ensures State() == Playback.HandleAudioFile(old(State()), name, outcome, now)
    {
      var vol := volume;
      BeginAudioFile(name);
      CompleteAudioFile(outcome, vol, now);
    }
  }
}
