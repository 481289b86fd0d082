/** The running palette: one current colour, changed by the keys pressed in a
    frame and then drawn as the grid around it. */
module Palette {
  import opened Ncs
  import opened Adjustment
  import opened Layout

  /** The keys that went down this frame (edge-triggered: a held key is
      reported once). W/Q step blackness up/down, S/A chromaticness, X/Z hue. */
  datatype Keys = Keys(w: bool, q: bool, s: bool, a: bool, x: bool, z: bool)

  /** One call's step triple: blackness, chromaticness, hue. */
  datatype Step = Step(blackness: int, chromaticness: int, hue: int)

  /** A step of exactly one unit on exactly one axis. */
  predicate IsUnitStep(st: Step)
  {
    var nonzero := (if st.blackness != 0 then 1 else 0)
                 + (if st.chromaticness != 0 then 1 else 0)
                 + (if st.hue != 0 then 1 else 0);
    nonzero == 1 &&
    -1 <= st.blackness <= 1 && -1 <= st.chromaticness <= 1 && -1 <= st.hue <= 1
  }

  /** The step for one key, present only when the key went down. */
  function Edge(pressed: bool, st: Step): seq<Step>
  {
    if pressed then [st] else []
  }

  /** How many of the six keys went down. */
  function PressedCount(k: Keys): nat
  {
    (if k.w then 1 else 0) + (if k.q then 1 else 0) + (if k.s then 1 else 0) +
    (if k.a then 1 else 0) + (if k.x then 1 else 0) + (if k.z then 1 else 0)
  }

  /** The steps one frame applies, one per pressed key, in the order the
      program tests the keys: W, Q, S, A, X, Z. */
  function KeySteps(k: Keys): (steps: seq<Step>)
    ensures |steps| == PressedCount(k) <= 6
    ensures forall st :: st in steps ==> IsUnitStep(st)
  {
    Edge(k.w, Step(1, 0, 0)) + Edge(k.q, Step(-1, 0, 0)) +
    Edge(k.s, Step(0, 1, 0)) + Edge(k.a, Step(0, -1, 0)) +
    Edge(k.x, Step(0, 0, 1)) + Edge(k.z, Step(0, 0, -1))
  }

  /** The colour after applying `steps` one after another. */
  function ApplySteps(c: Color, steps: seq<Step>): (r: Color)
    ensures Valid(c) ==> Valid(r)
    ensures steps == [] ==> r == c
    decreases |steps|
  {
    if steps == [] then c
    else ApplySteps(Adjusted(c, steps[0].blackness, steps[0].chromaticness, steps[0].hue), steps[1..])
  }

  /** Applying one more step at the end adjusts the colour reached so far. */
  lemma {:induction false} ApplyStepsSnoc(c: Color, steps: seq<Step>, st: Step)
    ensures ApplySteps(c, steps + [st])
         == Adjusted(ApplySteps(c, steps), st.blackness, st.chromaticness, st.hue)
    decreases |steps|
  {
    if steps != [] {
      var next := Adjusted(c, steps[0].blackness, steps[0].chromaticness, steps[0].hue);
      assert (steps + [st])[1..] == steps[1..] + [st];
      ApplyStepsSnoc(next, steps[1..], st);
    } else {
      assert ApplySteps(c, [st]) == ApplySteps(Adjusted(c, st.blackness, st.chromaticness, st.hue), []);
    }
  }

  /** One key test of the frame: the colour moves only if the key went down. */
  lemma ApplyEdge(c: Color, steps: seq<Step>, pressed: bool, st: Step)
    ensures ApplySteps(c, steps + Edge(pressed, st))
         == if pressed then Adjusted(ApplySteps(c, steps), st.blackness, st.chromaticness, st.hue)
            else ApplySteps(c, steps)
  {
    if pressed {
      ApplyStepsSnoc(c, steps, st);
    } else {
      assert steps + Edge(pressed, st) == steps;
    }
  }

  /** The colour after one key test: moved by `st` only if the key went down. */
  function Press(c: Color, pressed: bool, st: Step): Color
  {
    if pressed then Adjusted(c, st.blackness, st.chromaticness, st.hue) else c
  }

  /** A frame's steps, applied in order, are the six key tests one after another. */
  lemma KeyStepsInOrder(c: Color, k: Keys)
    ensures ApplySteps(c, KeySteps(k))
         == Press(Press(Press(Press(Press(Press(c, k.w, Step(1, 0, 0)), k.q, Step(-1, 0, 0)),
              k.s, Step(0, 1, 0)), k.a, Step(0, -1, 0)), k.x, Step(0, 0, 1)), k.z, Step(0, 0, -1))
  {
    var steps: seq<Step> := [];
    ApplyEdge(c, steps, k.w, Step(1, 0, 0));
    steps := steps + Edge(k.w, Step(1, 0, 0));
    ApplyEdge(c, steps, k.q, Step(-1, 0, 0));
    steps := steps + Edge(k.q, Step(-1, 0, 0));
    ApplyEdge(c, steps, k.s, Step(0, 1, 0));
    steps := steps + Edge(k.s, Step(0, 1, 0));
    ApplyEdge(c, steps, k.a, Step(0, -1, 0));
    steps := steps + Edge(k.a, Step(0, -1, 0));
    ApplyEdge(c, steps, k.x, Step(0, 0, 1));
    steps := steps + Edge(k.x, Step(0, 0, 1));
    ApplyEdge(c, steps, k.z, Step(0, 0, -1));
    steps := steps + Edge(k.z, Step(0, 0, -1));
    assert [] + Edge(k.w, Step(1, 0, 0)) == Edge(k.w, Step(1, 0, 0));
  }

  /** `state`: the palette's one piece of mutable state. */
  class State {
    var color: Color

    constructor (seed: Color)
      ensures color == seed
    {
      color := seed;
    }

    /** `update`, one frame: apply each pressed key once, in order, then, unless
        the frame is running slowly, walk the grid twice: once to fill the
        swatches (`boxes`), once to label them (`labels`). */
    method Update(keys: Keys, slow: bool) returns (boxes: seq<Cell>, labels: seq<Cell>)
      modifies this
      ensures color == ApplySteps(old(color), KeySteps(keys))
      ensures Valid(old(color)) ==> Valid(color)
      ensures boxes == (if slow then [] else Grid(color))
      ensures labels == boxes
    {
      KeyStepsInOrder(color, keys);
      ghost var c0 := color;
      if keys.w {
        color := AdjustColor(color, 1, 0, 0);
      }
      assert color == Press(c0, keys.w, Step(1, 0, 0));
      ghost var c1 := color;
      if keys.q {
        color := AdjustColor(color, -1, 0, 0);
      }
      assert color == Press(c1, keys.q, Step(-1, 0, 0));
      ghost var c2 := color;
      if keys.s {
        color := AdjustColor(color, 0, 1, 0);
      }
      assert color == Press(c2, keys.s, Step(0, 1, 0));
      ghost var c3 := color;
      if keys.a {
        color := AdjustColor(color, 0, -1, 0);
      }
      assert color == Press(c3, keys.a, Step(0, -1, 0));
      ghost var c4 := color;
      if keys.x {
        color := AdjustColor(color, 0, 0, 1);
      }
      assert color == Press(c4, keys.x, Step(0, 0, 1));
      ghost var c5 := color;
      if keys.z {
        color := AdjustColor(color, 0, 0, -1);
      }
      assert color == Press(c5, keys.z, Step(0, 0, -1));

      if slow {
        return [], [];
      }
      boxes := GridPass(color);
      labels := GridPass(color);
    }
  }

  /** A frame with no key pressed leaves the colour as it was. */
  lemma NoKeyNoChange(c: Color)
    ensures ApplySteps(c, KeySteps(Keys(false, false, false, false, false, false))) == c
  {
  }

  /** W alone is one blackness step up. */
  lemma OnlyW(c: Color)
    ensures ApplySteps(c, KeySteps(Keys(true, false, false, false, false, false))) == Adjusted(c, 1, 0, 0)
  {
    assert KeySteps(Keys(true, false, false, false, false, false)) == [Step(1, 0, 0)];
  }

  /** W and Q in the same frame do not cancel: from blackness 95 and
      chromaticness 0, W clamps to 99 and Q then reads that as 100, leaving 90. */
  lemma WAndQDoNotCancel(hue: int)
    requires 0 <= hue < HueCircle
    ensures ApplySteps(Color(hue, 0, 95), KeySteps(Keys(true, true, false, false, false, false)))
         == Color(hue, 0, 90)
  {
    assert KeySteps(Keys(true, true, false, false, false, false)) == [Step(1, 0, 0), Step(-1, 0, 0)];
  }

  /** X and Z in the same frame do cancel on a valid colour: a hue step is
      undone by the opposite one. */
  lemma XAndZCancel(c: Color)
    requires Valid(c)
    ensures ApplySteps(c, KeySteps(Keys(false, false, false, false, true, true))) == c
  {
    assert KeySteps(Keys(false, false, false, false, true, true)) == [Step(0, 0, 1), Step(0, 0, -1)];
    var mid := Adjusted(c, 0, 0, 1);
    ModShift(c.hue + Unit, -Unit);
    assert Adjusted(mid, 0, 0, -1).hue == c.hue;
  }
}
