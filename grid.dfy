/**
 * Integer grid coordinates: the `IntegerVector3` of `Block.cs`, used both for
 * grid cells and for offsets of a block's cubes from its origin.
 */
module Grid {

  datatype Cell = Cell(x: int, y: int, z: int)

  datatype Axis = X | Y | Z

  function Coord(c: Cell, a: Axis): int
  {
    match a
    case X => c.x
    case Y => c.y
    case Z => c.z
  }

  function Add(a: Cell, b: Cell): Cell
  {
    Cell(a.x + b.x, a.y + b.y, a.z + b.z)
  }

  /** The cell directly under `c` (`c + (0, -1, 0)`). */
  function Below(c: Cell): Cell
  {
    c.(y := c.y - 1)
  }
}
