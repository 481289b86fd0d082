# NCS palette: a Dafny model

This project models the logic of the NCS palette explorer (`main.go`). The
explorer shows a 9 x 9 grid of swatches around a current NCS colour. Blackness
changes down the rows and hue changes across the columns. Six keys move the
current colour one step along blackness (W/Q), chromaticness (S/A) or hue (X/Z).

The project has five modules:

- `Ncs` (`ncs.dfy`): the colour value. It holds `hue`, `chromaticness` and
  `blackness`. It also defines what a valid colour is: both nuances lie in
  [0, 99], their sum is at most 100, and the hue lies in [0, 400). It also
  holds the 40-label hue table.
- `Adjustment` (`adjust.dfy`): `adjustColor`. The method `AdjustColor` keeps
  the program's shape. It overwrites fields of a copy step by step and wraps
  the hue with two loops. Its result is proved equal to the function
  `Adjusted`. That function is built from `Stepped`, one nuance stepped against
  the other, and `Turned`, the hue taken modulo 400. The lemmas are about
  `Adjusted`. They cover validity, zero steps, hue congruence, full turns, the
  99 sentinel, monotonicity away from the sentinel, and the order of the two
  nuance clamps.
- `Hex` (`hex.dfy`): `uint8Hex` and `colorHex`. The method `Uint8Hex` keeps
  the program's nibble arithmetic and is proved equal to a table lookup,
  `HexPair`. `ColorHex` builds `#RRGGBB` from three channel values. A parser
  for that label proves a round trip and that labels are injective.
- `Layout` (`layout.dfy`): the screen constants and the grid. `GridPass` is
  the pair of nested loops. It is proved equal to the function `Grid`. The
  lemmas cover cell positions, boxes that tile the screen, the centre cell,
  shared nuances along a row and shared hue down a column.
- `Palette` (`palette.dfy`): the class `State`. Its method `Update` applies
  the pressed keys in the order W, Q, S, A, X, Z. It then returns the two grid
  passes: swatches, then labels. It returns neither pass when the frame runs
  slowly.

Integers are unbounded (`int`). The colour fields are Go `int`s and never come
near overflow here. Channel values are modelled as integers in [0, 2^32),
and bytes as integers in [0, 256). On those, `>> 4` is written `/ 16`,
`& 0xf` is written `% 16`, and `uint8(r >> 8)` is written `(r / 256) % 256`.

A valid colour's hue lies in [0, 400). The code wraps the hue only when the
hue step is nonzero, so a zero hue step leaves an off-wheel hue as it is. The
model follows the code (`Turned`). On valid colours the two agree.

## Model

| member | source | states |
|---|---|---|
| Ncs.HuesPrimaries | main.go:30-71 | the label table has forty entries, and Y, R, B and G open its four quarters at entries 0, 10, 20 and 30 |
| Adjustment.Stepped | main.go:124-142 | a zero step leaves the nuance as it is; a nonzero step against a competing nuance in [0, 99] gives a value in [0, 99] whose sum with the competitor is at most 100; against a competitor of 99 the result is at most 1; the exact values are stated in `SteppedValue` |
| Adjustment.SteppedValue | main.go:124-142 | for a nonzero step, with the raw value 10·steps added to the nuance (to 100 for a stored 99): a raw value that fits in [0, 99] and in the room 100 − other is the result; a raw value that reaches or passes that room fills it (99 when other is 0); against an other of 99 any raw value above 1 gives 0; a raw value below 0 gives 0 |
| Adjustment.Turned | main.go:164-172 | a zero step leaves the hue as it is; a nonzero step gives a hue in [0, 400) congruent to hue + 10 * steps modulo 400 |
| Adjustment.Adjusted | main.go:121-175 | validity is preserved for every step triple; an axis with a zero step is untouched; the all-zero call is the identity; a nonzero hue step gives a hue in [0, 400) congruent to H + 10h |
| Adjustment.AdjustColor | main.go:121-175 | the step-by-step field updates and the two hue loops compute exactly `Adjusted` |
| Adjustment.Repeated | main.go:196-201 | repeating any adjustment, as successive frames do, keeps a valid colour valid |
| Adjustment.RepeatedHueSteps | main.go:164-172 | n single hue steps in one direction give hue (H + 10n·dir) mod 400 and leave both nuances alone |
| Adjustment.WholeTurnsReturn | main.go:164-172 | any multiple of 40 single hue steps in one direction, taken one call at a time or as one call, returns a valid colour to itself |
| Adjustment.HueStepKeepsNuances | main.go:164-174 | the hue step never changes blackness or chromaticness |
| Adjustment.StepDownFromFull | main.go:125-131 | one step down from a stored 99 gives 90, not 89 (both nuances) |
| Adjustment.YieldToFullOther | main.go:135-141 | against a chromaticness of 99 every blackness increase gives blackness 0, even from 1, so an increase can lower it; the same holds for chromaticness against a blackness of 99 |
| Adjustment.BlacknessMonotone | main.go:124-142 | a blackness increase never lowers blackness unless chromaticness is 99; a decrease never raises it |
| Adjustment.ChromaticnessMonotone | main.go:144-162 | the same for chromaticness, measured against the blackness that this call has already updated |
| Adjustment.SequentialClamp | main.go:124-162 | (B20, C20) stepped by (+5, +5) gives (B70, C30); evaluating both axes from the input would give an invalid 70 + 70; (B50, C50) stepped by (+10, +10) stays (B50, C50) |
| Hex.HexPair | main.go:98-114 | two characters, each '0'-'9' or 'A'-'F', which decode to the byte: 16·d0 + d1 == b |
| Hex.Uint8Hex | main.go:98-114 | the shift, mask and per-nibble character arithmetic produce exactly `HexPair(b)` |
| Hex.HighByte | main.go:118 | `uint8(c >> 8)` is the byte r with 256·r <= c mod 65536 < 256·(r + 1) |
| Hex.ColorHex | main.go:116-119 | the label has length 7: '#' then the pairs for the high bytes of red, green and blue, in that order |
| Hex.ColorHexRoundTrip | main.go:116-119 | parsing the label gives back the three high bytes |
| Hex.ColorHexInjective | main.go:116-119 | two labels are equal exactly when the three high bytes are |
| Hex.SixteenBitChannel | main.go:117-118 | for a 16-bit channel the truncation to uint8 loses nothing: the label shows channel / 256 |
| Layout.CellAt | main.go:209-211 | cell (i, j) is drawn at (320 + 80i, 320 + 80j); for i, j in [-4, 4] its box lies on the 720 x 720 screen; a valid centre gives a valid cell colour; the cell takes its hue from the column and its nuances from the row |
| Layout.Grid | main.go:207-214 | the grid has 81 cells |
| Layout.GridIndex | main.go:207-211 | cell (i, j) is the grid's entry number (j + 4)·9 + (i + 4): rows outer, columns inner |
| Layout.GridPass | main.go:207-214 | the nested loops visit the cells in exactly the order of `Grid` and adjust the colour for each |
| Layout.CentreIsCurrent | main.go:209-211 | the centre cell is drawn at (320, 320) and shows the current colour unchanged |
| Layout.BoxesTileScreen | main.go:74-80 | every 80 x 80 box lies on the 720 x 720 screen, and distinct boxes do not overlap |
| Layout.GridValid | main.go:209 | every cell of a valid centre colour is valid |
| Layout.RowsAndColumns | main.go:207-211 | all cells in a row j share blackness and chromaticness; all cells in a column i share hue |
| Layout.RowHuesDistinct | main.go:207-211 | for a valid centre the nine hues along a row are pairwise different |
| Layout.HueOffset | main.go:164-172 | for any colour whose hue is on the wheel, whatever its nuances, at most 4 hue steps move the hue by exactly 10i units, up to one wrap of 400 |
| Palette.KeySteps | main.go:182-201 | one step per pressed key (at most six), each a ±1 step on exactly one axis |
| Palette.ApplySteps | main.go:182-201 | applying the steps in sequence keeps a valid colour valid; no steps leave the colour as it is |
| Palette.KeyStepsInOrder | main.go:182-201 | applying a frame's steps gives the same colour as the six key tests W, Q, S, A, X, Z one after another, each moving the colour only if its key went down |
| Palette.State.constructor | main.go:235-237 | the state starts with the seed colour |
| Palette.State.Update | main.go:181-223 | the new colour is the old one with the pressed keys' steps applied in the order W, Q, S, A, X, Z; validity is kept; unless the frame runs slowly, both grid passes produce `Grid` of the new colour, and a slow frame draws nothing |
| Palette.NoKeyNoChange | main.go:182-201 | with no key pressed the colour is unchanged |
| Palette.OnlyW | main.go:182-184 | W alone gives `Adjusted(old, 1, 0, 0)` |
| Palette.WAndQDoNotCancel | main.go:182-187 | W and Q together from (B95, C0) give B90, not B95 |
| Palette.XAndZCancel | main.go:196-201 | X and Z together return a valid colour to itself |

## Left out

- Drawing: `drawColorBox`, `drawColorBoxText`, `text.Draw`, font metrics, `ebitenutil.DebugPrint` and the frame rate are rendering calls into the ebiten and bitmapfont libraries. The two grid passes are modelled as the lists of cells they would draw.
- Key edge detection (`inpututil.IsKeyJustPressed`) is a library call. Its six results come in as the `Keys` value.
- `ebiten.IsRunningSlowly` is a library call. It comes in as the `slow` flag.
- `ncs.Parse`, `Color.String` and `Color.RGBA` belong to the external `ncs` package, which is not part of this model. So the seed colour `"1050-R90B"`, NCS notation, and the mapping from a colour to its RGB channels are all left out. `ColorHex` takes the three channel values as parameters.
- The `hues` table is kept as the constant `Ncs.Hues`. The program never reads it, so nothing is built on it beyond its shape (`HuesPrimaries`).
- `main`, `ebiten.Run` and the panics on its errors are process plumbing.
- Go `int` overflow is not modelled. The values stay far from the limits.
