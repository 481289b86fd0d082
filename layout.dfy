/** The 9 x 9 grid of swatches drawn around the current colour: the cell in
    column i and row j (both from -4 to 4) shows the current colour moved j
    blackness steps and i hue steps. */
module Layout {
  import opened Ncs
  import opened Adjustment

  const ScreenWidth := 80 * 9
  const ScreenHeight := 80 * 9
  const BoxWidth := 80
  const BoxHeight := 80

  /** Columns and rows run from -Reach to Reach. */
  const Reach := 4
  /** Cells per row and rows per grid. */
  const Side := 2 * Reach + 1

  /** One swatch: its top-left corner on the screen and the colour it shows. */
  datatype Cell = Cell(x: int, y: int, color: Color)

  /** The swatch in column `i` and row `j`. */
  function CellAt(center: Color, i: int, j: int): (cell: Cell)
    ensures cell.x == 320 + 80 * i && cell.y == 320 + 80 * j
    ensures -Reach <= i <= Reach && -Reach <= j <= Reach ==>
              0 <= cell.x && cell.x + BoxWidth <= ScreenWidth &&
              0 <= cell.y && cell.y + BoxHeight <= ScreenHeight
    ensures Valid(center) ==> Valid(cell.color)
    ensures cell.color.hue == Adjusted(center, 0, 0, i).hue
    ensures cell.color.blackness == Adjusted(center, j, 0, 0).blackness
    ensures cell.color.chromaticness == Adjusted(center, j, 0, 0).chromaticness
  {
    Cell((ScreenWidth - BoxWidth) / 2 + i * BoxWidth,
         (ScreenHeight - BoxHeight) / 2 + j * BoxHeight,
         Adjusted(center, j, 0, i))
  }

  /** All 81 swatches, row by row from the top, each row left to right. */
  function Grid(center: Color): (cells: seq<Cell>)
    ensures |cells| == Side * Side
  {
    seq(Side * Side, k requires 0 <= k < Side * Side => CellAt(center, k % Side - Reach, k / Side - Reach))
  }

  /** The swatch for column `i` and row `j` sits at position
      `(j + 4) * 9 + (i + 4)` of the grid. */
  lemma GridIndex(center: Color, i: int, j: int)
    requires -Reach <= i <= Reach && -Reach <= j <= Reach
    ensures 0 <= (j + Reach) * Side + (i + Reach) < Side * Side
    ensures Grid(center)[(j + Reach) * Side + (i + Reach)] == CellAt(center, i, j)
  {
    var k := (j + Reach) * Side + (i + Reach);
    DivModSide(j + Reach, i + Reach);
    assert k % Side == i + Reach && k / Side == j + Reach;
  }

  lemma DivModSide(q: int, r: int)
    requires 0 <= q < Side && 0 <= r < Side
    ensures (q * Side + r) / Side == q && (q * Side + r) % Side == r
  {
  }

  /** The two nested loops of the frame: walk the rows, and within each row
      the columns, adjusting the current colour for every cell. */
  method GridPass(center: Color) returns (cells: seq<Cell>)
    ensures cells == Grid(center)
  {
    cells := [];
    var j := -4;
    while j <= 4
      invariant -Reach <= j <= Reach + 1
      invariant cells == Grid(center)[..(j + Reach) * Side]
    {
      var i := -4;
      while i <= 4
        invariant -Reach <= i <= Reach + 1
        invariant cells == Grid(center)[..(j + Reach) * Side + (i + Reach)]
      {
        var c := AdjustColor(center, j, 0, i);
        var x := (ScreenWidth - BoxWidth) / 2 + i * BoxWidth;
        var y := (ScreenHeight - BoxHeight) / 2 + j * BoxHeight;
        GridIndex(center, i, j);
        cells := cells + [Cell(x, y, c)];
        i := i + 1;
      }
      j := j + 1;
    }
  }

  /** The middle swatch, drawn at (320, 320), is the current colour itself. */
  lemma CentreIsCurrent(center: Color)
    ensures Grid(center)[Reach * Side + Reach] == Cell(320, 320, center)
  {
    GridIndex(center, 0, 0);
  }

  /** Every swatch lies on the 720 x 720 screen, and no two swatches overlap:
      distinct cells are a whole box apart in at least one direction. */
  lemma BoxesTileScreen(center: Color, k1: int, k2: int)
    requires 0 <= k1 < Side * Side && 0 <= k2 < Side * Side
    ensures var a := Grid(center)[k1];
            0 <= a.x && a.x + BoxWidth <= ScreenWidth && 0 <= a.y && a.y + BoxHeight <= ScreenHeight
    ensures var a, b := Grid(center)[k1], Grid(center)[k2];
            k1 != k2 ==> a.x + BoxWidth <= b.x || b.x + BoxWidth <= a.x ||
                         a.y + BoxHeight <= b.y || b.y + BoxHeight <= a.y
  {
    CellPosition(center, k1);
    CellPosition(center, k2);
    var i1, j1, i2, j2 := k1 % Side, k1 / Side, k2 % Side, k2 / Side;
    assert k1 == Side * j1 + i1 && k2 == Side * j2 + i2;
    if k1 != k2 {
      assert i1 != i2 || j1 != j2;
    }
  }

  /** Where entry `k` of the grid is drawn, from its row `k / 9` and column `k % 9`. */
  lemma CellPosition(center: Color, k: int)
    requires 0 <= k < Side * Side
    ensures Grid(center)[k].x == 320 + BoxWidth * (k % Side - Reach)
    ensures Grid(center)[k].y == 320 + BoxHeight * (k / Side - Reach)
    ensures 0 <= k % Side < Side && 0 <= k / Side < Side
  {
  }

  /** Every swatch of a valid colour is valid. */
  lemma GridValid(center: Color, k: int)
    requires Valid(center)
    requires 0 <= k < Side * Side
    ensures Valid(Grid(center)[k].color)
  {
  }

  /** All swatches of one row share blackness and chromaticness, and all
      swatches of one column share the hue. */
  lemma RowsAndColumns(center: Color, i1: int, j1: int, i2: int, j2: int)
    requires -Reach <= i1 <= Reach && -Reach <= j1 <= Reach
    requires -Reach <= i2 <= Reach && -Reach <= j2 <= Reach
    ensures var a, b := Grid(center)[(j1 + Reach) * Side + (i1 + Reach)],
                        Grid(center)[(j2 + Reach) * Side + (i2 + Reach)];
            (j1 == j2 ==> a.color.blackness == b.color.blackness &&
                          a.color.chromaticness == b.color.chromaticness) &&
            (i1 == i2 ==> a.color.hue == b.color.hue)
  {
    GridIndex(center, i1, j1);
    GridIndex(center, i2, j2);
  }

  /** Along a row of a valid colour the nine hues are all different, so the
      row shows nine distinct hues around the current one. */
  lemma RowHuesDistinct(center: Color, i1: int, i2: int, j: int)
    requires Valid(center)
    requires -Reach <= i1 <= Reach && -Reach <= i2 <= Reach && -Reach <= j <= Reach
    requires i1 != i2
    ensures CellAt(center, i1, j).color.hue != CellAt(center, i2, j).color.hue
  {
    HueOffset(center, i1);
    HueOffset(center, i2);
  }

  /** A hue on the wheel moved by at most 4 steps in either direction lands exactly
      10 units per step away, up to one wrap of the wheel, whatever the nuances. */
  lemma HueOffset(c: Color, i: int)
    requires 0 <= c.hue < HueCircle
    requires -Reach <= i <= Reach
    ensures var t := Adjusted(c, 0, 0, i).hue;
            t == c.hue + i * Unit || t == c.hue + i * Unit + HueCircle || t == c.hue + i * Unit - HueCircle
  {
  }
}
