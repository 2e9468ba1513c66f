/**
 * The shared occupancy store `BlockArea`, reduced to its interface: which
 * block id holds each grid cell, which ids hold a tentative reservation
 * (`Place`), and which ids have been committed (`Plant`).
 */
module Area {
  import opened Grid

  /** Cells below this height are solid ground. */
  const Floor := 0

  /** Cell `c` blocks the block `excludeId`: it is under the floor or held by another block. */
  predicate Taken(occupant: map<Cell, int>, c: Cell, excludeId: int)
  {
    c.y < Floor || (c in occupant && occupant[c] != excludeId)
  }

  /**
   * `BlockArea.IsOccupied(index, cubePositions, rotation, excludeId)`: some cube
   * of a block whose origin sits at `index` would land on a taken cell.
   */
  predicate IsOccupied(occupant: map<Cell, int>, index: Cell, cubes: seq<Cell>, excludeId: int)
  {
    exists k :: 0 <= k < |cubes| && Taken(occupant, Add(index, cubes[k]), excludeId)
  }

  /** The cells covered by a block whose origin is at `index`. */
  function Footprint(index: Cell, cubes: seq<Cell>): set<Cell>
  {
    set k | 0 <= k < |cubes| :: Add(index, cubes[k])
  }

  /** `occupant` after block `id` has claimed `cells`. */
  function Claim(occupant: map<Cell, int>, id: int, cells: set<Cell>): map<Cell, int>
  {
    occupant + map c | c in cells :: id
  }

  /** `occupant` after every cell held by `id` has been given up. */
  function Release(occupant: map<Cell, int>, id: int): map<Cell, int>
  {
    map c | c in occupant && occupant[c] != id :: occupant[c]
  }

  /** The three mutating operations a block issues on the store. */
  datatype AreaCall = CallPlace | CallUnplace | CallPlant

  /** The abstract value of a `BlockArea`. */
  datatype Store = Store(occupant: map<Cell, int>, placed: set<int>, planted: set<int>)

  /** The effect of one call issued by block `id` whose footprint is `cells`. */
  function Perform(s: Store, id: int, cells: set<Cell>, call: AreaCall): Store
  {
    match call
    case CallPlace => Store(Claim(s.occupant, id, cells), s.placed + {id}, s.planted)
    case CallUnplace => Store(Release(s.occupant, id), s.placed - {id}, s.planted)
    case CallPlant => s.(planted := s.planted + {id})
  }

  function PerformAll(s: Store, id: int, cells: set<Cell>, calls: seq<AreaCall>): Store
    decreases |calls|
  {
    if calls == [] then s else PerformAll(Perform(s, id, cells, calls[0]), id, cells, calls[1..])
  }

  class BlockArea {
    var occupant: map<Cell, int>
    var placed: set<int>
    var planted: set<int>
    /** `ClampDimension(v, extent)`: keeps a block of that extent inside the playfield (not modelled). */
    const clampDimension: (int, int) -> int
    /** `SnapDimension(v)`: rounds a coordinate to a grid line (not modelled). */
    const snapDimension: int -> int

    ghost function State(): Store
      reads this
    {
      Store(occupant, placed, planted)
    }

    constructor (clamp: (int, int) -> int, snap: int -> int)
      ensures State() == Store(map[], {}, {})
      ensures clampDimension == clamp && snapDimension == snap
    {
      occupant, placed, planted := map[], {}, {};
      clampDimension, snapDimension := clamp, snap;
    }

    /** Tentatively reserves the footprint of block `id` at `index`. */
    method Place(id: int, index: Cell, cubes: seq<Cell>)
      modifies this
      ensures State() == Perform(old(State()), id, Footprint(index, cubes), CallPlace)
    {
      occupant := Claim(occupant, id, Footprint(index, cubes));
      placed := placed + {id};
    }

    /** Releases whatever block `id` holds; a safe no-op when it holds nothing. */
    method Unplace(id: int)
      modifies this
      ensures State() == Perform(old(State()), id, {}, CallUnplace)
    {
      occupant := Release(occupant, id);
      placed := placed - {id};
    }

    /** Commits the reservation of block `id` permanently. */
    method Plant(id: int)
      modifies this
      ensures State() == Perform(old(State()), id, {}, CallPlant)
    {
      planted := planted + {id};
    }
  }

  /** Giving up one's own cells never changes what another block sees as taken. */
  lemma ReleaseKeepsOccupancy(occupant: map<Cell, int>, id: int, index: Cell, cubes: seq<Cell>)
    ensures IsOccupied(Release(occupant, id), index, cubes, id) == IsOccupied(occupant, index, cubes, id)
  {
  }

  /**
   * Claiming a footprint that was free (for `id`) does not change what `id`
   * itself sees as occupied anywhere.
   */
  lemma ClaimKeepsOccupancy(occupant: map<Cell, int>, id: int, at: Cell, cubes: seq<Cell>,
                            index: Cell, others: seq<Cell>)
    requires !IsOccupied(occupant, at, cubes, id)
    ensures IsOccupied(Claim(occupant, id, Footprint(at, cubes)), index, others, id)
         == IsOccupied(occupant, index, others, id)
  {
  }

  /**
   * A tentative reservation that is released before it is planted leaves the
   * store as it was, for a block that held nothing before and reserved free cells.
   */
  lemma UnplaceUndoesPlace(s: Store, id: int, cells: set<Cell>)
    requires id !in s.placed
    requires forall c :: c in s.occupant ==> s.occupant[c] != id
    requires forall c :: c in cells ==> c !in s.occupant
    ensures PerformAll(s, id, cells, [CallPlace, CallUnplace]) == s
  {
  }

  /** A reservation followed by the commit leaves the block planted and still holding its cells. */
  lemma PlaceThenPlantCommits(s: Store, id: int, cells: set<Cell>)
    ensures var t := PerformAll(s, id, cells, [CallPlace, CallPlant]);
            id in t.placed && id in t.planted
            && (forall c :: c in cells ==> c in t.occupant && t.occupant[c] == id)
  {
  }
}
