/**
 * The radial-bar visualizer: a ring of 32 bars in one group that is added to
 * the scene once the scene exists, and a per-frame update that sets every
 * bar's height from the frequency bin of the same index and spins the bars
 * and the group a little.
 *
 * Bars are records (their height, their spin, and the slot around the ring
 * they were created for); the list of bars is a field that the methods
 * update in place, element by element.
 */
module Visualizer {
  import opened Wrappers

  /** One frequency-bin magnitude, as read into a `Uint8Array`. */
  newtype byte = x: int | 0 <= x < 256

  const NumBars: nat := 32
  /** The group's fixed tilt about the x axis. */
  const GroupTilt: real := 0.3
  /** Height of a bar as created. */
  const InitialScale: real := 1.0
  /** Height of a bar at magnitude 128. */
  const BarGain: real := 5.0
  /** Smallest height a frame gives a bar. */
  const FloorScale: real := 0.5
  /** Spin added to every bar per frame. */
  const BarSpin: real := 0.02
  /** Spin added to the group per frame. */
  const GroupSpin: real := 0.005

  /** A bar mesh: the slot it occupies on the ring, its height (`scale.y`) and its spin (`rotation.y`). */
  datatype Bar = Bar(slot: nat, scaleY: real, rotationY: real)

  /** The group holding the bars; only its two rotations change. */
  class Group {
    var rotationX: real
    var rotationY: real

    constructor ()
      ensures rotationX == 0.0 && rotationY == 0.0
    {
      rotationX, rotationY := 0.0, 0.0;
    }
  }

  /** The scene, as the set of objects it has as children. */
  class Scene {
    var children: set<object>

    constructor ()
      ensures children == {}
    {
      children := {};
    }
  }

  // ---------------------------------------------------------------------
  // The per-frame mapping
  // ---------------------------------------------------------------------

  /** `audioData[i] ?? 0`: a bin past the end of the frame reads as 0; there is no wrap-around. */
  function BinValue(frame: seq<byte>, i: nat): byte {
    if i < |frame| then frame[i] else 0
  }

  /** `Math.max((value / 128) * 5, 0.5)`. */
  function BarScale(v: byte): (r: real)
    ensures r >= FloorScale && r >= v as real / 128.0 * BarGain
    ensures r == FloorScale || r == v as real / 128.0 * BarGain
  {
    var s := v as real / 128.0 * BarGain;
    if s > FloorScale then s else FloorScale
  }

  /** The change one frame makes to one bar. */
  function StepBar(b: Bar, v: byte): Bar {
    b.(scaleY := BarScale(v), rotationY := b.rotationY + BarSpin)
  }

  /** The bars after one frame, bar `i` driven by bin `i`. */
  function UpdatedBars(bars: seq<Bar>, frame: seq<byte>): seq<Bar> {
    seq(|bars|, i requires 0 <= i < |bars| => StepBar(bars[i], BinValue(frame, i)))
  }

  /** The bars the setup creates: one per slot, at height 1 and no spin. */
  function InitialBars(): seq<Bar> {
    seq(NumBars, (i: int) requires 0 <= i => Bar(i, InitialScale, 0.0))
  }

  // ---------------------------------------------------------------------
  // Properties of the mapping
  // ---------------------------------------------------------------------

  /** Setup makes exactly 32 bars at height 1, one per slot, in slot order. */
  lemma InitialBarsShape()
    ensures |InitialBars()| == 32
    ensures forall i :: 0 <= i < |InitialBars()| ==>
      InitialBars()[i] == Bar(i, 1.0, 0.0)
  {
  }

  /**
   * A frame keeps the number of bars and their slots, gives bar `i` the height
   * of bin `i` (0 when the frame is shorter), never below the floor, and adds
   * the spin increment.
   */
  lemma UpdatedBarsEffect(bars: seq<Bar>, frame: seq<byte>)
    ensures var r := UpdatedBars(bars, frame);
      && |r| == |bars|
      && (forall i :: 0 <= i < |r| ==> r[i].slot == bars[i].slot)
      && (forall i :: 0 <= i < |r| ==> r[i].scaleY >= FloorScale)
      && (forall i :: 0 <= i < |r| && i < |frame| ==> r[i].scaleY == BarScale(frame[i]))
      && (forall i :: |frame| <= i < |r| ==> r[i].scaleY == FloorScale)
      && (forall i :: 0 <= i < |r| ==> r[i].rotationY == bars[i].rotationY + BarSpin)
  {
  }

  /** The new heights depend only on the frame, not on the heights before. */
  lemma HeightsForgetHistory(a: seq<Bar>, b: seq<Bar>, frame: seq<byte>)
    requires |a| == |b|
    ensures forall i :: 0 <= i < |a| ==>
      UpdatedBars(a, frame)[i].scaleY == UpdatedBars(b, frame)[i].scaleY
  {
  }

  /** A larger magnitude never gives a shorter bar. */
  lemma BarScaleMonotone(v: byte, w: byte)
    requires v <= w
    ensures BarScale(v) <= BarScale(w)
  {
  }

  /** Magnitudes up to 12 all sit on the floor; from 13 on the height grows with the magnitude. */
  lemma BarScaleFloorRange(v: byte)
    ensures BarScale(v) == FloorScale <==> v <= 12
  {
  }

  /** Worked values: silence gives the floor, 128 gives the gain, 255 the tallest bar. */
  lemma BarScaleExamples()
    ensures BarScale(0) == 0.5
    ensures BarScale(12) == 0.5
    ensures BarScale(13) == 0.5078125
    ensures BarScale(128) == 5.0
    ensures BarScale(255) == 9.9609375
  {
  }

  /** An alternating frame [255, 0, 255, 0] on four bars. */
  lemma AlternatingFrame(bars: seq<Bar>)
    requires |bars| == 4
    ensures var r := UpdatedBars(bars, [255, 0, 255, 0]);
      [r[0].scaleY, r[1].scaleY, r[2].scaleY, r[3].scaleY] == [9.9609375, 0.5, 9.9609375, 0.5]
  {
  }

  // ---------------------------------------------------------------------
  // The component
  // ---------------------------------------------------------------------

  class AudioVisualizer {
    /** The group made by the last setup; teardown does not clear it. */
    var group: Group?
    var bars: seq<Bar>

    constructor ()
      ensures group == null && bars == []
    {
      group, bars := null, [];
    }

    /**
     * The setup effect. Without a scene it does nothing and returns null;
     * otherwise it appends the 32 new bars, makes a tilted group, adds the
     * group to the scene and returns it (the teardown needs it).
     */
    method Setup(scene: Scene?) returns (made: Group?)
      modifies this, scene
      ensures scene == null ==> made == null && group == old(group) && bars == old(bars)
      ensures scene != null ==>
        && made != null && fresh(made) && group == made
        && made.rotationX == GroupTilt && made.rotationY == 0.0
        && bars == old(bars) + InitialBars()
        && scene.children == old(scene.children) + {made}
    {
      if scene == null {
        return null;
      }
      made := new Group();
      group := made;
      var i := 0;
      while i < NumBars
        modifies this
        invariant 0 <= i <= NumBars
        invariant group == made && made.rotationX == 0.0 && made.rotationY == 0.0
        invariant bars == old(bars) + InitialBars()[..i]
      {
        assert InitialBars()[..i + 1] == InitialBars()[..i] + [Bar(i, InitialScale, 0.0)];
        bars := bars + [Bar(i, InitialScale, 0.0)];
        i := i + 1;
      }
      assert InitialBars()[..NumBars] == InitialBars();
      made.rotationX := GroupTilt;
      scene.children := scene.children + {made};
    }

    /** The cleanup of the setup that made `made` in `scene`: the group leaves the scene and the bar list empties. */
    method Teardown(scene: Scene, made: Group)
      modifies this, scene
      ensures scene.children == old(scene.children) - {made}
      ensures bars == [] && group == old(group)
    {
      scene.children := scene.children - {made};
      bars := [];
    }

    /**
     * The update effect for a new frame. Without a frame, before setup, or
     * with no bars, nothing changes; otherwise every bar takes its new height
     * and spin and the group spins.
     */
    method Update(audioData: Option<seq<byte>>)
      modifies this, group
      ensures group == old(group)
      ensures audioData.None? || group == null || old(bars) == [] ==>
        bars == old(bars) && (group != null ==> group.rotationY == old(group.rotationY))
      ensures audioData.Some? && group != null && old(bars) != [] ==>
        bars == UpdatedBars(old(bars), audioData.value)
        && group.rotationY == old(group.rotationY) + GroupSpin
      ensures group != null ==> group.rotationX == old(group.rotationX)
    {
      if audioData.None? || group == null || |bars| == 0 {
        return;
      }
      var frame := audioData.value;
      var g := group;
      var numBars := |bars|;
      var i := 0;
      while i < numBars
        modifies this
        invariant group == g
        invariant 0 <= i <= numBars == |bars|
        invariant forall k :: 0 <= k < i ==> bars[k] == StepBar(old(bars)[k], BinValue(frame, k))
        invariant forall k :: i <= k < numBars ==> bars[k] == old(bars)[k]
      {
        var value := if i < |frame| then frame[i] else 0;
        var bar := bars[i];
        bars := bars[i := bar.(scaleY := BarScale(value), rotationY := bar.rotationY + BarSpin)];
        i := i + 1;
      }
      g.rotationY := g.rotationY + GroupSpin;
    }
  }
}
