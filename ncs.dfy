/** The NCS colour value the palette works on: a hue position on the 400-unit
    wheel, a chromaticness and a blackness. In the program the value comes from
    the external `ncs` package; only its three integer coordinates matter here. */
module Ncs {

  /** One NCS colour. Whiteness is implicit: 100 - blackness - chromaticness. */
  datatype Color = Color(hue: int, chromaticness: int, blackness: int)

  /** Size of one adjustment step, in raw units of any axis. */
  const Unit := 10

  /** Length of the hue wheel in raw units: 40 steps of `Unit`. */
  const HueCircle := 400

  /** Largest stored blackness or chromaticness; a stored 99 stands for a
      full 100 when the value is stepped. */
  const Full := 99

  /** The colours the palette can reach from a well-formed seed: both
      nuances in [0, 99], whiteness never negative, hue on the wheel. */
  predicate Valid(c: Color)
  {
    0 <= c.blackness <= Full &&
    0 <= c.chromaticness <= Full &&
    c.blackness + c.chromaticness <= 100 &&
    0 <= c.hue < HueCircle
  }

  /** The program's table of forty hue labels, in its order. The program
      declares the table but never reads it. */
  const Hues: seq<string> := [
    "Y", "Y10R", "Y20R", "Y30R", "Y40R", "Y50R", "Y60R", "Y70R", "Y80R", "Y90R",
    "R", "R10B", "R20B", "R30B", "R40B", "R50B", "R60B", "R70B", "R80B", "R90B",
    "B", "B10G", "B20G", "B30G", "B40G", "B50G", "B60G", "B70G", "B80G", "B90G",
    "G", "G10Y", "G20Y", "G30Y", "G40Y", "G50Y", "G60Y", "G70Y", "G80Y", "G90Y"
  ]

  /** The four elementary hues in the table's order. */
  const Primaries := "YRBG"

  /** The table has forty labels, ten per quarter of the circle, and each
      quarter opens with its elementary hue alone: Y, R, B and G at entries
      0, 10, 20 and 30. */
  lemma HuesPrimaries(q: int)
    requires 0 <= q < 4
    ensures |Hues| == 40
    ensures Hues[10 * q] == [Primaries[q]]
  {
  }
}
