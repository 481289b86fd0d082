/** Bounded adjustment of an NCS colour by whole steps: blackness first, then
    chromaticness against the already-updated blackness, then hue around the
    wheel. */
module Adjustment {
  import opened Ncs

  /** One nuance (blackness or chromaticness) stepped by `steps` units of 10,
      kept in [0, 99] and then kept from pushing whiteness below zero against
      `other`, the current value of the competing nuance. A stored 99 is read
      as a full 100 before the step is added. When `other` is the full 99 the
      stepped nuance yields to 0 instead of filling the room that is left. */
  function Stepped(v: int, other: int, steps: int): (r: int)
    ensures steps == 0 ==> r == v
    ensures steps != 0 && 0 <= other <= Full ==> 0 <= r <= Full && r + other <= 100
    ensures steps != 0 && other == Full ==> r <= 1
  {
    if steps == 0 then v
    else
      var raw := (if v == Full then 100 else v) + steps * Unit;
      var kept := if raw >= 100 then Full else if raw < 0 then 0 else raw;
      if kept <= 100 - other then kept
      else if other == Full then 0
      else 100 - other
  }

  /** The value a nonzero nuance step lands on, case by case, which pins it
      down for every competitor in [0, 99]: a step that fits moves the
      nuance by exactly 10 * steps (from 100 when it was a stored 99); a step
      that reaches or passes the room `other` leaves fills that room, at most
      99; against a full 99 anything above that room yields 0; a step below
      zero stops at zero. */
  lemma SteppedValue(v: int, other: int, steps: int)
    requires steps != 0
    ensures var raw := (if v == Full then 100 else v) + steps * Unit;
            0 <= raw <= Full && raw <= 100 - other ==> Stepped(v, other, steps) == raw
    ensures var raw := (if v == Full then 100 else v) + steps * Unit;
            0 <= other < Full && raw >= 100 - other ==>
              Stepped(v, other, steps) == if other == 0 then Full else 100 - other
    ensures var raw := (if v == Full then 100 else v) + steps * Unit;
            other == Full && raw > 1 ==> Stepped(v, other, steps) == 0
    ensures var raw := (if v == Full then 100 else v) + steps * Unit;
            raw < 0 && other <= 100 ==> Stepped(v, other, steps) == 0
  {
  }

  /** The hue moved by `steps` units of 10 and brought back onto the wheel; a
      zero step leaves the hue as it is, even off the wheel. */
  function Turned(hue: int, steps: int): (r: int)
    ensures steps == 0 ==> r == hue
    ensures steps != 0 ==> 0 <= r < HueCircle && (r - hue - steps * Unit) % HueCircle == 0
  {
    if steps == 0 then hue else (hue + steps * Unit) % HueCircle
  }

  /** The colour `adjustColor` returns, axis by axis in the program's order. */
  function Adjusted(c: Color, blackness: int, chromaticness: int, hue: int): (r: Color)
    ensures Valid(c) ==> Valid(r)
    ensures blackness == 0 ==> r.blackness == c.blackness
    ensures chromaticness == 0 ==> r.chromaticness == c.chromaticness
    ensures hue == 0 ==> r.hue == c.hue
    ensures blackness == 0 && chromaticness == 0 && hue == 0 ==> r == c
    ensures hue != 0 ==> 0 <= r.hue < HueCircle && (r.hue - c.hue - hue * Unit) % HueCircle == 0
  {
    var b := Stepped(c.blackness, c.chromaticness, blackness);
    var ch := Stepped(c.chromaticness, b, chromaticness);
    Color(Turned(c.hue, hue), ch, b)
  }

  /** `adjustColor`: works on a copy of `c`, overwriting its fields step by
      step, and brings the hue back onto the wheel with two loops. */
  method AdjustColor(c: Color, blackness: int, chromaticness: int, hue: int) returns (r: Color)
    ensures r == Adjusted(c, blackness, chromaticness, hue)
  {
    r := c;

    if blackness != 0 {
      if r.blackness == 99 {
        r := r.(blackness := 100);
      }
      r := r.(blackness := r.blackness + blackness * Unit);
      if r.blackness >= 100 {
        r := r.(blackness := 99);
      }
      if r.blackness < 0 {
        r := r.(blackness := 0);
      }
      if r.blackness > 100 - r.chromaticness {
        if r.chromaticness == 99 {
          r := r.(blackness := 0);
        } else {
          r := r.(blackness := 100 - r.chromaticness);
        }
      }
    }
    assert r == c.(blackness := Stepped(c.blackness, c.chromaticness, blackness));

    if chromaticness != 0 {
      if r.chromaticness == 99 {
        r := r.(chromaticness := 100);
      }
      r := r.(chromaticness := r.chromaticness + chromaticness * Unit);
      if r.chromaticness >= 100 {
        r := r.(chromaticness := 99);
      }
      if r.chromaticness < 0 {
        r := r.(chromaticness := 0);
      }
      if r.chromaticness > 100 - r.blackness {
        if r.blackness == 99 {
          r := r.(chromaticness := 0);
        } else {
          r := r.(chromaticness := 100 - r.blackness);
        }
      }
    }
    ghost var b := Stepped(c.blackness, c.chromaticness, blackness);
    assert r == Color(c.hue, Stepped(c.chromaticness, b, chromaticness), b);

    if hue != 0 {
      ghost var nuances := r;
      r := r.(hue := r.hue + hue * Unit);
      ghost var start := r.hue;
      ghost var turns := 0;
      while r.hue < 0
        invariant r == nuances.(hue := start + 400 * turns)
        decreases -r.hue
      {
        r := r.(hue := r.hue + 400);
        turns := turns + 1;
      }
      while r.hue >= 400
        invariant r == nuances.(hue := start + 400 * turns)
        invariant 0 <= r.hue
        decreases r.hue
      {
        r := r.(hue := r.hue - 400);
        turns := turns - 1;
      }
      WrappedIsMod(start, turns);
    }
  }

  /** A value brought onto the wheel by whole turns is its remainder. */
  lemma WrappedIsMod(x: int, turns: int)
    requires 0 <= x + 400 * turns < 400
    ensures x % HueCircle == x + 400 * turns
  {
  }

  /** `n` successive calls with the same step triple. */
  function Repeated(c: Color, blackness: int, chromaticness: int, hue: int, n: nat): (r: Color)
    ensures Valid(c) ==> Valid(r)
    decreases n
  {
    if n == 0 then c
    else Repeated(Adjusted(c, blackness, chromaticness, hue), blackness, chromaticness, hue, n - 1)
  }

  /** `n` single hue steps in one direction (`dir` is +1 or -1) add up to one
      turn of `10 * n * dir` units, and leave both nuances alone. */
  lemma {:induction false} RepeatedHueSteps(c: Color, dir: int, n: nat)
    requires Valid(c)
    requires dir == 1 || dir == -1
    ensures Repeated(c, 0, 0, dir, n) == c.(hue := (c.hue + n * dir * Unit) % HueCircle)
    decreases n
  {
    if n > 0 {
      var next := Adjusted(c, 0, 0, dir);
      RepeatedHueSteps(next, dir, n - 1);
      var h := c.hue + n * dir * Unit;
      assert (next.hue + (n - 1) * dir * Unit) % HueCircle == h % HueCircle by {
        assert next.hue == (c.hue + dir * Unit) % HueCircle;
        ModShift(c.hue + dir * Unit, (n - 1) * dir * Unit);
      }
    }
  }

  /** Adding to a value or to its remainder gives the same remainder. */
  lemma ModShift(x: int, d: int)
    ensures (x % HueCircle + d) % HueCircle == (x + d) % HueCircle
  {
  }

  /** Whole turns of the wheel do not change a remainder. */
  lemma ModAddMultiple(y: int, q: int)
    ensures (y + q * HueCircle) % HueCircle == y % HueCircle
  {
  }

  /** Any whole number of turns of single hue steps either way (40 steps per
      turn) brings a valid colour back to itself, one step at a time or as a
      single call. */
  lemma WholeTurnsReturn(c: Color, dir: int, n: nat)
    requires Valid(c)
    requires dir == 1 || dir == -1
    requires n % 40 == 0
    ensures Repeated(c, 0, 0, dir, n) == c
    ensures Adjusted(c, 0, 0, n * dir) == c
  {
    var turns := n / 40;
    var q := if dir == 1 then turns else -turns;
    assert n * dir * Unit == q * HueCircle by {
      assert n * Unit == turns * HueCircle;
    }
    ModAddMultiple(c.hue, q);
    assert (c.hue + n * dir * Unit) % HueCircle == c.hue;
    RepeatedHueSteps(c, dir, n);
  }

  /** A hue step never touches the nuances: the result differs from the same
      call without a hue step only in its hue. */
  lemma HueStepKeepsNuances(c: Color, blackness: int, chromaticness: int, hue: int)
    ensures Adjusted(c, blackness, chromaticness, hue)
         == Adjusted(c, blackness, chromaticness, 0).(hue := Adjusted(c, blackness, chromaticness, hue).hue)
  {
  }

  /** One blackness step down from the full 99 lands on 90: the 99 is read
      as 100 first. The same holds for chromaticness. */
  lemma StepDownFromFull(c: Color)
    requires Valid(c)
    ensures c.blackness == Full ==> Adjusted(c, -1, 0, 0).blackness == 90
    ensures c.chromaticness == Full ==> Adjusted(c, 0, -1, 0).chromaticness == 90
  {
  }

  /** Against a full chromaticness any blackness increase yields blackness 0,
      even from blackness 1; symmetrically for chromaticness against a full
      blackness. An increase can therefore lower the value. */
  lemma YieldToFullOther(c: Color, steps: int)
    requires Valid(c)
    requires steps > 0
    ensures c.chromaticness == Full ==> Adjusted(c, steps, 0, 0).blackness == 0
    ensures c.blackness == Full ==> Adjusted(c, 0, steps, 0).chromaticness == 0
    ensures c.chromaticness == Full && c.blackness == 1 ==>
              Adjusted(c, steps, 0, 0).blackness < c.blackness
  {
  }

  /** Away from the full-99 case a step moves a nuance in its own direction:
      an increase never lowers blackness unless chromaticness is 99, and a
      decrease never raises it. */
  lemma BlacknessMonotone(c: Color, steps: int)
    requires Valid(c)
    ensures steps > 0 && c.chromaticness != Full ==> Adjusted(c, steps, 0, 0).blackness >= c.blackness
    ensures steps < 0 ==> Adjusted(c, steps, 0, 0).blackness <= c.blackness
  {
  }

  /** The same for chromaticness, measured against the blackness as the
      blackness step left it. */
  lemma ChromaticnessMonotone(c: Color, blackness: int, steps: int)
    requires Valid(c)
    ensures var mid := Adjusted(c, blackness, 0, 0);
            steps > 0 && mid.blackness != Full ==>
              Adjusted(c, blackness, steps, 0).chromaticness >= mid.chromaticness
    ensures var mid := Adjusted(c, blackness, 0, 0);
            steps < 0 ==> Adjusted(c, blackness, steps, 0).chromaticness <= mid.chromaticness
  {
  }

  /** Chromaticness is clamped against the blackness the same call has just
      set: (B20, C20) stepped by (+5, +5) gives (B70, C30), where reading both
      axes from the input would give the invalid (B70, C70). */
  lemma SequentialClamp(hue: int)
    requires 0 <= hue < HueCircle
    ensures Adjusted(Color(hue, 20, 20), 5, 5, 0) == Color(hue, 30, 70)
    ensures Stepped(20, 20, 5) + Stepped(20, 20, 5) > 100
    ensures Adjusted(Color(hue, 50, 50), 10, 10, 0) == Color(hue, 50, 50)
  {
  }
}
