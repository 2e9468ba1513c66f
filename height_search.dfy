/**
 * The vertical part of snapping: from a start cell a block climbs its column
 * one cell at a time while it is occupied. This module states what that search
 * finds and why it always stops.
 */
module HeightSearch {
  import opened Grid
  import opened Area

  /** Is the cell at height `y` in the column of `start` occupied for block `id`? */
  predicate ColumnOccupied(occupant: map<Cell, int>, cubes: seq<Cell>, id: int, start: Cell, y: int)
  {
    IsOccupied(occupant, start.(y := y), cubes, id)
  }

  /**
   * `rest` is the lowest cell at or above `start`, in the same column, that is
   * free for block `id`: everything from `start` up to just under it is occupied.
   */
  ghost predicate RestsAt(occupant: map<Cell, int>, cubes: seq<Cell>, id: int, start: Cell, rest: Cell)
  {
    && rest == start.(y := rest.y)
    && start.y <= rest.y
    && !ColumnOccupied(occupant, cubes, id, start, rest.y)
    && forall y :: start.y <= y < rest.y ==> ColumnOccupied(occupant, cubes, id, start, y)
  }

  /** The search has at most one answer. */
  lemma RestsAtUnique(occupant: map<Cell, int>, cubes: seq<Cell>, id: int, start: Cell, r1: Cell, r2: Cell)
    requires RestsAt(occupant, cubes, id, start, r1) && RestsAt(occupant, cubes, id, start, r2)
    ensures r1 == r2
  {
  }

  /** The search stays put exactly when the start cell is free. */
  lemma RestsAtStartIffFree(occupant: map<Cell, int>, cubes: seq<Cell>, id: int, start: Cell, rest: Cell)
    requires RestsAt(occupant, cubes, id, start, rest)
    ensures rest == start <==> !IsOccupied(occupant, start, cubes, id)
    ensures rest != start <==> rest.y > start.y
  {
    assert start.(y := start.y) == start;
    if rest.y > start.y {
      assert ColumnOccupied(occupant, cubes, id, start, start.y);
    }
  }

  /** The highest cell of a finite set, or the floor when the set lies lower. */
  ghost function MaxHeight(cells: set<Cell>): (m: int)
    ensures Floor <= m
    ensures forall c :: c in cells ==> c.y <= m
    decreases cells
  {
    if cells == {} then Floor
    else
      var c :| c in cells;
      var rest := MaxHeight(cells - {c});
      if c.y > rest then c.y else rest
  }

  /** The lowest cube offset of a block, or 0 when every cube lies higher. */
  function MinOffset(cubes: seq<Cell>): (m: int)
    ensures m <= 0
    ensures forall k :: 0 <= k < |cubes| ==> m <= cubes[k].y
  {
    if cubes == [] then 0
    else
      var rest := MinOffset(cubes[1..]);
      if cubes[0].y < rest then cubes[0].y else rest
  }

  /** Above this height no origin can be occupied: the store holds finitely many cells. */
  ghost function Ceiling(occupant: map<Cell, int>, cubes: seq<Cell>): int
  {
    MaxHeight(occupant.Keys) - MinOffset(cubes)
  }

  lemma FreeAboveCeiling(occupant: map<Cell, int>, cubes: seq<Cell>, id: int, index: Cell)
    ensures IsOccupied(occupant, index, cubes, id) ==> index.y <= Ceiling(occupant, cubes)
  {
  }

  /**
   * A block that had to climb rests on something: the cell under its resting
   * place stays occupied for it after it reserves that place.
   */
  lemma LandedIsSupported(occupant: map<Cell, int>, cubes: seq<Cell>, id: int, start: Cell, rest: Cell)
    requires RestsAt(occupant, cubes, id, start, rest)
    requires rest.y > start.y
    ensures IsOccupied(occupant, Below(rest), cubes, id)
    ensures IsOccupied(Claim(occupant, id, Footprint(rest, cubes)), Below(rest), cubes, id)
  {
    assert Below(rest) == start.(y := rest.y - 1);
    assert ColumnOccupied(occupant, cubes, id, start, rest.y - 1);
    ClaimKeepsOccupancy(occupant, id, rest, cubes, Below(rest), cubes);
  }

  /** A single cube that has fallen under the floor is lifted back onto it. */
  lemma SettlesOnFloor(id: int, start: Cell)
    requires start.y < Floor
    ensures RestsAt(map[], [Cell(0, 0, 0)], id, start, start.(y := Floor))
  {
    var cubes := [Cell(0, 0, 0)];
    forall y | start.y <= y < Floor ensures ColumnOccupied(map[], cubes, id, start, y) {
      assert Taken(map[], Add(start.(y := y), cubes[0]), id);
    }
  }

  /** A single cube dropped onto another single cube in the same column rests one cell higher. */
  lemma StacksOnTop(other: int, id: int, bottom: Cell)
    requires other != id && bottom.y >= Floor
    ensures var cubes := [Cell(0, 0, 0)];
            RestsAt(Claim(map[], other, Footprint(bottom, cubes)), cubes, id, bottom, bottom.(y := bottom.y + 1))
  {
    var cubes := [Cell(0, 0, 0)];
    var occupant := Claim(map[], other, Footprint(bottom, cubes));
    assert Add(bottom, cubes[0]) == bottom;
    assert Footprint(bottom, cubes) == {bottom};
    assert ColumnOccupied(occupant, cubes, id, bottom, bottom.y) by {
      assert bottom.(y := bottom.y) == bottom;
      assert Taken(occupant, Add(bottom, cubes[0]), id);
    }
    var top := bottom.(y := bottom.y + 1);
    assert !ColumnOccupied(occupant, cubes, id, bottom, top.y) by {
      assert Add(top, cubes[0]) == top;
      assert top !in occupant;
    }
  }
}
