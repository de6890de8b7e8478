# three-av: transport and radial bars, modelled in Dafny

three-av is a browser page that plays a dropped audio file and drives a
Three.js ring of bars from the file's frequency spectrum. This project models
the page's two pieces of sequential logic:

- **The player transport** (`src/app/page.tsx`). It covers stop, play from
  an offset, the self-rescheduling time update, play/pause toggle, seek,
  volume, and the state effect of loading a file. It also covers `formatTime`,
  which shows seconds as `M:SS`.
  - Module `Playback` states the page's refs and React state as one value
    `PlayerState`. It gives each handler as a function on that value, and its
    lemmas state what the handlers promise.
  - Module `PlayerPage` holds class `Player`. The class keeps the same state
    in fields that its methods update step by step, and each method is proved
    equal to its `Playback` function.
  - The Web Audio graph is abstract. Source nodes are numbered in creation
    order. `started[k]` is the offset the k-th node was started at.
    `stopped` holds the nodes that were stopped and disconnected. The audio
    context clock is the parameter `now`.
  - Module `TimeFormat` writes out the JavaScript arithmetic behind
    `formatTime`: `Math.floor`, the truncating `%`, integer `toString` and
    `padStart`. It also has a parser for the format, which the round-trip
    lemma uses.
- **The radial-bar visualizer** (`src/components/AudioVisualizer.tsx`),
  module `Visualizer`. The setup effect appends 32 bars and adds a tilted
  group to the scene. The teardown takes the group out and empties the bar
  list. The per-frame update sets bar `i`'s height to
  `max(v / 128 * 5, 0.5)`, where `v` is bin `i` of the frame, or 0 past its
  end. The update also adds 0.02 to each bar's spin and 0.005 to the
  group's spin.

Points where the code behaves differently from what a reader might expect,
each proved about the model:

- Stop sets the shown time to 0, so a pause does not keep the elapsed time.
  The time-update loop is never cancelled, so a pending tick then shows the
  clock's elapsed time again (`TickAfterStopOverwritesTime`). Toggling twice
  with no tick in between restarts the track from offset 0
  (`PauseThenPlayRestartsAtZero`).
- A bin past the end of the frame reads as 0. Indices do not wrap modulo the
  frame length.
- Only a null frame makes the bar update a no-op. An empty `Uint8Array` is
  truthy, so it gives every bar the floor height.
- Bin value 255 gives the height `255 / 128 * 5 = 9.9609375`, so the frame
  `[255, 0, 255, 0]` gives `[9.9609375, 0.5, 9.9609375, 0.5]`
  (`AlternatingFrame`).
- A failed decode does not return the player to an empty state. The previous
  decoded buffer stays loaded, and the new file name is shown
  (`HandleAudioFileEffect`).
- Loading a file is two steps with the decode in between, and the page stays
  interactive meanwhile. A toggle during the decode replays the previous
  buffer under the new name (`ToggleDuringDecodeReplaysOldBuffer`). A volume
  change during the decode is overridden on the gain by the volume of the
  drop's render (`VolumeDuringDecodeOverwritten`). Two decodes that finish in
  the opposite order play the first file under the second file's name
  (`DecodesOutOfOrder`).

## Model

| member | source | states |
|---|---|---|
| `PlayerPage.Player.constructor` | src/app/page.tsx:9-23 | the initial state: no audio graph, not playing, time 0, duration 0, volume 1 |
| `PlayerPage.Player.SetupAudioNodes` | src/app/page.tsx:25-45 | the context and gain node exist afterwards; a new gain node starts at gain 1, an existing one keeps its gain |
| `PlayerPage.Player.ReleaseSource` | src/app/page.tsx:62-63 | stop and disconnect of the optional current source: the source joins the stopped set, or nothing happens when there is none |
| `PlayerPage.Player.StopCurrentAudio` | src/app/page.tsx:58-67 | equals `Playback.StopCurrentAudio` of the old state and keeps the one-live-source invariant |
| `PlayerPage.Player.RunUpdateTime` | src/app/page.tsx:101-111 | one time-update callback: shows the elapsed time, or at the end clears playing and shows the duration; returns whether it reschedules |
| `PlayerPage.Player.Tick` | src/app/page.tsx:101-111 | an animation frame runs the pending time update, if any, and keeps the invariant |
| `PlayerPage.Player.StartSource` | src/app/page.tsx:79-95 | creates the next source node, starts it at the offset, applies the captured volume, sets the start time and playing |
| `PlayerPage.Player.InstallSource` | src/app/page.tsx:72-112 | play past its guard: setup, release of the old source, a fresh started source, the immediate time update |
| `PlayerPage.Player.PlayAudioWith` | src/app/page.tsx:69-113 | equals `Playback.PlayAudioWith` of the old state for the volume the closure captured, and keeps the invariant |
| `PlayerPage.Player.PlayAudio` | src/app/page.tsx:69-113 | equals `Playback.PlayAudio` of the old state and keeps the invariant |
| `PlayerPage.Player.TogglePlayPause` | src/app/page.tsx:133-139 | stop when playing, otherwise play from the shown time; keeps the invariant |
| `PlayerPage.Player.HandleTimeChange` | src/app/page.tsx:141-147 | shows the seek value and plays from it only when a buffer is loaded; keeps the invariant |
| `PlayerPage.Player.HandleVolumeChange` | src/app/page.tsx:149-155 | sets the volume, and the gain when the gain node exists; keeps the invariant |
| `PlayerPage.Player.BeginAudioFile` | src/app/page.tsx:117-120 | the load up to its first await: stop, rename, setup; keeps the invariant |
| `PlayerPage.Player.CompleteAudioFile` | src/app/page.tsx:122-130 | the load after its awaits, from whatever state other handlers left: a failure changes nothing, a decoded buffer is stored with its duration and played from 0 with the captured volume; keeps the invariant |
| `PlayerPage.Player.HandleAudioFile` | src/app/page.tsx:115-131 | the two steps with nothing in between and the current volume; keeps the invariant |
| `Playback.Active` | src/app/page.tsx:76-82 | the source nodes created and not yet stopped and disconnected; `ActiveAtMostOne` bounds it |
| `Playback.Valid` | src/app/page.tsx:62-90 | the page invariant: the gain node exists with the context, a buffer or a source needs a context, and every live node is the current source; the handler lemmas preserve it |
| `Playback.SetupAudioNodes` | src/app/page.tsx:25-45 | creates the context and a gain node at gain 1 on first use; stated by the class method of the same name |
| `Playback.ReleaseSource` | src/app/page.tsx:62-63 | the optional-chained stop and disconnect; stated by `StopCurrentAudioReleases` and `PlayAudioInstallsFreshSource` |
| `Playback.StopCurrentAudio` | src/app/page.tsx:58-67 | stop; stated by `StopCurrentAudioReleases` and `StopIdempotent` |
| `Playback.UpdateTime` | src/app/page.tsx:101-111 | the time-update body; stated by `TickBeforeEnd` and `TickAtEnd` |
| `Playback.Reschedules` | src/app/page.tsx:105-106 | whether the time update asks for another frame: the context exists and the elapsed time is before the end |
| `Playback.Tick` | src/app/page.tsx:101-111 | one frame of the time loop; stated by `TickBeforeEnd`, `TickAtEnd` and `TickPreservesValid` |
| `Playback.StartSource` | src/app/page.tsx:79-95 | the fresh node, offset, gain, start time and playing flag; stated by `PlayAudioWithInstallsFreshSource` and `PlayAudioStartsAtOffset` |
| `Playback.InstallSource` | src/app/page.tsx:72-112 | play past its guard; stated by `PlayAudioWithInstallsFreshSource` |
| `Playback.PlayAudioWith` | src/app/page.tsx:69-113 | play by a closure that captured a volume; stated by `PlayAudioWithInstallsFreshSource` |
| `Playback.PlayAudio` | src/app/page.tsx:69-113 | play with the current volume; stated by `PlayAudioNeedsContextAndBuffer`, `PlayAudioInstallsFreshSource`, `PlayAudioStartsAtOffset` and `ResumeFromOffset` |
| `Playback.TogglePlayPause` | src/app/page.tsx:133-139 | stated by `TogglePlayPauseEffect` and `PauseThenPlayRestartsAtZero` |
| `Playback.HandleTimeChange` | src/app/page.tsx:141-147 | stated by `HandleTimeChangeEffect` |
| `Playback.HandleVolumeChange` | src/app/page.tsx:149-155 | stated by `HandleVolumeChangeEffect` and `VolumeAppliedOnPlay` |
| `Playback.BeginAudioFile` | src/app/page.tsx:117-120 | the load up to its first await; stated by `BeginAudioFileEffect` |
| `Playback.CompleteAudioFile` | src/app/page.tsx:122-130 | the load after its awaits; stated by `CompleteAudioFileEffect` |
| `Playback.HandleAudioFile` | src/app/page.tsx:115-131 | the uninterrupted load; stated by `HandleAudioFileEffect` and `LoadTwiceKeepsOneSource` |
| `Playback.InitialValid` | src/app/page.tsx:9-23 | the initial state satisfies the invariant and has no live source |
| `Playback.ActiveAtMostOne` | src/app/page.tsx:76-82 | under the invariant the live sources are exactly the current source, if any, so there is at most one |
| `Playback.StopCurrentAudioReleases` | src/app/page.tsx:58-67 | after stop: no live source, no current source, not playing, time 0; the old source joins the stopped set; buffer, duration, volume, gain and the pending loop are unchanged |
| `Playback.StopIdempotent` | src/app/page.tsx:62-64 | a second stop changes nothing |
| `Playback.PlayAudioNeedsContextAndBuffer` | src/app/page.tsx:69-70 | without an audio context or a decoded buffer, play leaves the state unchanged |
| `Playback.PlayAudioInstallsFreshSource` | src/app/page.tsx:73-90 | the new node is the current one and the only live one; every earlier node is stopped; the offset is recorded; the gain equals the stored volume |
| `Playback.PlayAudioWithInstallsFreshSource` | src/app/page.tsx:73-90 | as `PlayAudioInstallsFreshSource`, with the gain equal to the volume the closure captured |
| `Playback.PlayAudioStartsAtOffset` | src/app/page.tsx:93-112 | the start time is now minus the offset, so the elapsed time at that instant is the offset; it is playing and ticking iff the offset is before the end, otherwise the time shows the duration |
| `Playback.TickBeforeEnd` | src/app/page.tsx:101-106 | a tick before the end shows the elapsed time and changes nothing else |
| `Playback.TickAtEnd` | src/app/page.tsx:107-110 | the terminating tick sets the time to the duration exactly, clears playing and ends the loop, touching no source |
| `Playback.TickPreservesValid` | src/app/page.tsx:101-111 | ticks keep the invariant and the set of live sources |
| `Playback.ResumeFromOffset` | src/app/page.tsx:93-111 | after playing from x and a later tick, the time is x plus the time passed, capped at the duration, never below x |
| `Playback.TickAfterStopOverwritesTime` | src/app/page.tsx:101-106 | a tick that is still pending after a stop replaces the time 0 with the nonzero elapsed time and keeps the loop going |
| `Playback.PauseThenPlayRestartsAtZero` | src/app/page.tsx:133-139 | pausing then playing with no tick in between starts the new source at offset 0 |
| `Playback.TogglePlayPauseEffect` | src/app/page.tsx:133-139 | toggling while playing leaves no live source at time 0; toggling while not playing starts one sole source from the shown time, or changes nothing without a context or buffer |
| `Playback.HandleTimeChangeEffect` | src/app/page.tsx:141-147 | without a buffer only the shown time changes; with one, playback restarts on a sole fresh source with elapsed time v |
| `Playback.HandleVolumeChangeEffect` | src/app/page.tsx:149-155 | volume becomes v, the gain becomes v when the node exists, and every other field is unchanged |
| `Playback.VolumeAppliedOnPlay` | src/app/page.tsx:84-87 | the volume set before a play is the gain of that playback |
| `Playback.HandleAudioFileEffect` | src/app/page.tsx:115-131 | a failed decode leaves the page stopped with no live source, the new name and the old buffer; a decoded file becomes the buffer and duration and plays from 0 on a sole fresh source |
| `Playback.LoadTwiceKeepsOneSource` | src/app/page.tsx:115-127 | loading two files in a row leaves only the second file's source live, with all earlier ones stopped |
| `Playback.BeginAudioFileEffect` | src/app/page.tsx:117-120 | the first step stops every source and shows the new name, and keeps the previous buffer, duration and volume |
| `Playback.CompleteAudioFileEffect` | src/app/page.tsx:122-130 | from any valid state with a context: a failure changes nothing; a decoded buffer becomes the buffer and duration and plays from 0 on a sole fresh source, with the captured volume as gain |
| `Playback.ToggleDuringDecodeReplaysOldBuffer` | src/app/page.tsx:133-139 | a toggle between the two steps plays the previous buffer from 0 under the new name |
| `Playback.VolumeDuringDecodeOverwritten` | src/app/page.tsx:84-87 | a volume change between the two steps is lost on the gain: the gain ends at the drop's volume while the shown volume is the new one |
| `Playback.DecodesOutOfOrder` | src/app/page.tsx:115-127 | two loads whose decodes complete in reverse order leave the second name shown and the first buffer playing on the sole live source |
| `TimeFormat.Truncate` | src/app/page.tsx:159 | the integer toward zero: within one below a non-negative input, within one above a negative one |
| `TimeFormat.Remainder60` | src/app/page.tsx:159 | JavaScript's `% 60`: same sign as the dividend, magnitude below 60, and it differs from the dividend by a multiple of 60 |
| `TimeFormat.MinutesOf` | src/app/page.tsx:158 | the minutes m satisfy 60m <= t < 60(m+1) |
| `TimeFormat.SecondsOf` | src/app/page.tsx:159 | the seconds field is in 0..59 for t >= 0 and in -60..0 for negative t |
| `TimeFormat.ClockFieldsOfNonNegative` | src/app/page.tsx:158-159 | for t >= 0 the fields are the whole seconds divided by and modulo 60, and they recombine to them |
| `TimeFormat.NatToDecimal` | src/app/page.tsx:160 | a non-empty run of digits, with no leading zero, of length one exactly for values below 10 |
| `TimeFormat.IntToDecimal` | src/app/page.tsx:160 | digits with a leading minus exactly for negative values |
| `TimeFormat.PadStart2` | src/app/page.tsx:160 | zeros in front up to length two; a text of length two or more is unchanged |
| `TimeFormat.ParseNatToDecimal` | src/app/page.tsx:160 | the decimal text of n reads back as n |
| `TimeFormat.FormatTime` | src/app/page.tsx:157-161 | minutes, a colon and the padded seconds; stated by `FormatTimeRoundTrip`, `FormatTimeShape` and `FormatTimeExamples` |
| `TimeFormat.FormatTimeRoundTrip` | src/app/page.tsx:157-161 | the formatted text reads back as exactly its minutes and seconds fields, for every time |
| `TimeFormat.FormatTimeShape` | src/app/page.tsx:157-161 | for t >= 0 the text is whole minutes, a colon and exactly two digits of the seconds 0..59 |
| `TimeFormat.FormatTimeExamples` | src/app/page.tsx:157-161 | 65.7 s shows 1:05, 0 shows 0:00, 3600 shows 60:00 |
| `Visualizer.BarScale` | src/components/AudioVisualizer.tsx:62 | the larger of v/128*5 and the floor 0.5 |
| `Visualizer.StepBar` | src/components/AudioVisualizer.tsx:61-64 | one bar's height and spin for one frame; stated by `UpdatedBarsEffect` |
| `Visualizer.UpdatedBars` | src/components/AudioVisualizer.tsx:57-67 | all bars for one frame, bar i driven by bin i, or 0 past the frame's end; stated by `UpdatedBarsEffect`, `HeightsForgetHistory` and `AlternatingFrame` |
| `Visualizer.InitialBars` | src/components/AudioVisualizer.tsx:23-42 | the bars the setup appends; stated by `InitialBarsShape` |
| `Visualizer.InitialBarsShape` | src/components/AudioVisualizer.tsx:23-41 | setup's bars are exactly 32, bar i in slot i at height 1 |
| `Visualizer.UpdatedBarsEffect` | src/components/AudioVisualizer.tsx:57-64 | an update keeps the bar count and slots, gives bar i the height of bin i (the floor past the frame's end), never below 0.5, and adds 0.02 to each spin |
| `Visualizer.HeightsForgetHistory` | src/components/AudioVisualizer.tsx:62-63 | the new heights depend only on the frame, not on the old heights |
| `Visualizer.BarScaleMonotone` | src/components/AudioVisualizer.tsx:62 | a larger magnitude never gives a shorter bar |
| `Visualizer.BarScaleFloorRange` | src/components/AudioVisualizer.tsx:62 | the height is the floor exactly for magnitudes up to 12 |
| `Visualizer.BarScaleExamples` | src/components/AudioVisualizer.tsx:62 | 0 and 12 give 0.5, 13 gives 0.5078125, 128 gives 5, 255 gives 9.9609375 |
| `Visualizer.AlternatingFrame` | src/components/AudioVisualizer.tsx:57-63 | the frame [255, 0, 255, 0] on four bars gives heights [9.9609375, 0.5, 9.9609375, 0.5] |
| `Visualizer.AudioVisualizer.constructor` | src/components/AudioVisualizer.tsx:12-13 | no group and an empty bar list before setup |
| `Visualizer.AudioVisualizer.Setup` | src/components/AudioVisualizer.tsx:17-46 | without a scene nothing changes; otherwise 32 new bars are appended, a fresh group tilted by 0.3 becomes the group and is added to the scene |
| `Visualizer.AudioVisualizer.Teardown` | src/components/AudioVisualizer.tsx:47-50 | the group leaves the scene and the bar list becomes empty; the group reference is kept |
| `Visualizer.AudioVisualizer.Update` | src/components/AudioVisualizer.tsx:54-72 | a no-op without a frame, a group or bars; otherwise the bars become `UpdatedBars` of the old bars and the group's spin grows by 0.005, its tilt unchanged |

## Left out

- Floating point: times, volumes, heights and rotations are exact reals.
  The bar formula is exact in binary floating point for byte inputs. The
  time arithmetic can round at boundaries (for example, elapsed
  `now - (now - x)` can differ from `x` in the last bit). The per-frame
  spins `rotation.y += 0.02` and `+= 0.005` accumulate binary rounding,
  because neither constant is exact in binary. `BarSpin` and `GroupSpin`
  add them exactly.
- Playback: `duration` is taken as the page's current state. In the code,
  the time-update closure captures the `duration` of the render it was
  created in. After a file load it still sees the previous file's duration,
  or 0 for the first file.
- The visualization loop (`startVisualization`, `getByteFrequencyData`,
  `setAudioData`) and the `cancelAnimationFrame` in stop are not modelled.
  Each play starts another loop without cancelling the last, and stop
  cancels only the most recently stored frame handle. Frames reach the
  visualizer as the parameter of `Update`.
- Animation-frame scheduling: one call of `Tick` is one frame. All pending
  time-update callbacks read the same refs, so the model keeps one flag,
  `ticking`, that says whether any is pending.
- Web Audio internals: decoding is an outcome parameter. `Decoded` carries
  the buffer. `DecodeFailed` stands for a rejected `file.arrayBuffer()` or
  `decodeAudioData`. The model does not capture node connect/disconnect
  wiring, the analyser's `fftSize`, or the sound itself.
- `Playback.BeginAudioFile`: a failure to construct the `AudioContext` inside
  `setupAudioNodes` is caught by the handler and leaves no context. The model
  always ends the first step with a context.
- `PlayerPage.Player.CompleteAudioFile` requires the audio context, which the
  first step always creates. The code's `audioContextRef.current!` relies on
  the same fact.
- `PlayerPage.Player.PlayAudio`: a negative offset makes
  `AudioBufferSourceNode.start` throw a `RangeError`. The model starts the
  node anyway. The slider and the time loop never supply a negative offset.
- Closing the audio context is not modelled. The code never closes it, so
  `audioContextRef` is never null again once set.
- `formatTime`: `Number.prototype.toString` switches to exponent notation
  for magnitudes of 10^21 and above, and NaN and infinities print as words.
  The model covers finite times of ordinary size.
- Visualizer: the model leaves out the bar placement by cosine and sine on
  radius 5, the HSL colours and materials, the box geometry, and the
  vertical bob `sin(Date.now() * 0.003 + i * 0.2) * 0.2`. These are
  trigonometric, time-driven, or presentation only. A bar keeps, as `slot`,
  the ring position it was created for.
- The group's own child list, which aliases the bar meshes, is not kept
  separately: bar state lives once, in the visualizer's bar list.
  `Scene.children` is a set, which matches the code because each group
  is new when it is added.
- `Visualizer.AudioVisualizer.Setup` appends to the bar list rather than
  replacing it, as the code does. The list holds exactly 32 bars only because
  React runs the teardown before every re-run of the setup effect. The model
  does not include that lifecycle.
- `src/components/Scene.tsx` (renderer, camera, lights, render loop, context
  lookup), `src/hooks/useAudioAnalyser.ts` (microphone input),
  `src/app/layout.tsx`, `src/components/Providers.tsx`, the drag-and-drop
  handlers and the JSX markup are platform wiring or presentation only. They
  are not part of this model.
- The debug logging effect (`console.log`) is not modelled.
