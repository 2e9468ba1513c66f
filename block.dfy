/**
 * One block (`Block`): its start-up bookkeeping, the snap that turns a pose into
 * a resting cell, and the grab / fall / plant lifecycle driven by input and by
 * the per-tick `Update`. Positions are grid cells; the block's orientation is
 * fixed, so `cubePositions` are its cubes' offsets in that orientation.
 */
module Blocks {
  import opened Grid
  import opened Area
  import opened HeightSearch
  import L = Lifecycle
  import Ids

  /** A pose in the scene: the block's own body, or its preview shadow. */
  class Transform {
    var position: Cell

    constructor (p: Cell)
      ensures position == p
    {
      position := p;
    }
  }

  /** `m` is the largest `a`-coordinate among the first `n` centres, or 0 if all are lower. */
  ghost predicate IsAxisMax(centres: seq<Cell>, n: nat, a: Axis, m: int)
    requires n <= |centres|
  {
    && 0 <= m
    && (forall i :: 0 <= i < n ==> Coord(centres[i], a) <= m)
    && (m == 0 || exists i :: 0 <= i < n && Coord(centres[i], a) == m)
  }

  ghost predicate IsExtent(centres: seq<Cell>, n: nat, d: Cell)
    requires n <= |centres|
  {
    IsAxisMax(centres, n, X, d.x) && IsAxisMax(centres, n, Y, d.y) && IsAxisMax(centres, n, Z, d.z)
  }

  /** The `dimensions` loop of `Start`: the per-axis maximum of the cube centres, starting from 0. */
  method Dimensions(centres: seq<Cell>) returns (d: Cell)
    ensures IsExtent(centres, |centres|, d)
  {
    d := Cell(0, 0, 0);
    for i := 0 to |centres|
      invariant IsExtent(centres, i, d)
    {
      var c := centres[i];
      d := Cell(if d.x < c.x then c.x else d.x,
                if d.y < c.y then c.y else d.y,
                if d.z < c.z then c.z else d.z);
    }
  }

  /** The block after falling `drop` cells. */
  function Fall(p: Cell, drop: nat): Cell
  {
    p.(y := p.y - drop)
  }

  class Block {
    const id: int
    const cubePositions: seq<Cell>
    const dimensions: Cell
    const area: BlockArea
    const transform: Transform
    const shadow: Transform

    var grabbed: bool
    var delayedUngrabbed: bool
    var planting: bool
    var prevGrabbed: bool
    /** Zero-delay `Ungrab` invocations queued by `DelayedUngrab` and not yet delivered. */
    var pendingUngrabs: nat
    /** `Plant` coroutines started by `Lay` and neither finished nor stopped. */
    var pendingPlants: nat

    ghost function Flags(): L.Flags
      reads this
    {
      L.Flags(grabbed, delayedUngrabbed, planting, prevGrabbed, pendingUngrabs, pendingPlants)
    }

    ghost predicate Valid()
      reads this
    {
      transform != shadow && L.Inv(Flags())
    }

    /** `SnapColumn`: clamp and snap x and z for the block's extent; y is kept. */
    function SnapColumn(p: Cell): (r: Cell)
      ensures r.y == p.y
      ensures r.x == area.snapDimension(area.clampDimension(p.x, dimensions.x))
      ensures r.z == area.snapDimension(area.clampDimension(p.z, dimensions.z))
    {
      Cell(area.snapDimension(area.clampDimension(p.x, dimensions.x)),
           p.y,
           area.snapDimension(area.clampDimension(p.z, dimensions.z)))
    }

    /** Whether snapping from `p` makes the block climb, i.e. come to rest on something. */
    ghost predicate Lands(p: Cell)
      reads area
    {
      IsOccupied(area.occupant, SnapColumn(p), cubePositions, id)
    }

    /** Whether the cell under the block is occupied for it. */
    ghost predicate Supported()
      reads transform, area
    {
      IsOccupied(area.occupant, Below(transform.position), cubePositions, id)
    }

    /** The store after the block issues `calls` from where it now stands. */
    ghost function AreaAfter(s: Store, calls: seq<AreaCall>): Store
      reads transform
    {
      PerformAll(s, id, Footprint(transform.position, cubePositions), calls)
    }

    constructor Start(counter: Ids.IdCounter, blockArea: BlockArea, centres: seq<Cell>, spawn: Cell)
      requires counter.Valid()
      modifies counter
      ensures counter.Valid() && id == Ids.Issued(old(counter.nextId)) && counter.nextId == id + 1
      ensures area == blockArea && cubePositions == centres && IsExtent(centres, |centres|, dimensions)
      ensures Valid() && Flags() == L.Spawned && L.AutoGrabbable(Flags())
      ensures fresh(transform) && fresh(shadow)
      ensures RestsAt(area.occupant, cubePositions, id, SnapColumn(spawn), transform.position)
    {
      var newId := counter.GetId();
      id := newId;
      prevGrabbed := false;
      cubePositions := centres;
      var extent := Dimensions(centres);
      dimensions := extent;
      area := blockArea;
      transform := new Transform(spawn);
      shadow := new Transform(spawn);
      grabbed, delayedUngrabbed, planting := false, false, false;
      pendingUngrabs, pendingPlants := 0, 0;
      new;
      var _ := Snap(transform);
    }

    /**
     * `SnapHeight`: from `start`, climb one cell at a time while occupied.
     * `moved` says whether it climbed at all; `index` is where it stopped.
     */
    method SnapHeight(start: Cell) returns (moved: bool, index: Cell)
      ensures moved == IsOccupied(area.occupant, start, cubePositions, id)
      ensures RestsAt(area.occupant, cubePositions, id, start, index)
      ensures moved <==> index.y > start.y
      ensures !moved ==> index == start
    {
      index := start;
      moved := IsOccupied(area.occupant, index, cubePositions, id);
      if moved {
        index := index.(y := index.y + 1);
        while IsOccupied(area.occupant, index, cubePositions, id)
          invariant index == start.(y := index.y) && start.y < index.y
          invariant forall y :: start.y <= y < index.y ==> ColumnOccupied(area.occupant, cubePositions, id, start, y)
          decreases Ceiling(area.occupant, cubePositions) - index.y
        {
          FreeAboveCeiling(area.occupant, cubePositions, id, index);
          index := index.(y := index.y + 1);
        }
      }
    }

    /** `Snap`: column first, then height; reports whether the block came to rest on something. */
    method Snap(t: Transform) returns (moved: bool)
      modifies t
      ensures moved == IsOccupied(area.occupant, SnapColumn(old(t.position)), cubePositions, id)
      ensures RestsAt(area.occupant, cubePositions, id, SnapColumn(old(t.position)), t.position)
    {
      var position := SnapColumn(t.position);
      t.position := position;
      var index;
      moved, index := SnapHeight(position);
      if moved {
        t.position := index;
      }
    }

    method Unlay()
      requires Valid()
      modifies this, area
      ensures Valid()
      ensures Flags() == L.UnlayStep(old(Flags())).flags
      ensures area.State() == AreaAfter(old(area.State()), L.UnlayStep(old(Flags())).calls)
    {
      if planting {
        planting := false;
        area.Unplace(id);
        pendingPlants := 0;  // StopCoroutine("Plant")
      }
    }

    method Lay()
      requires Valid()
      modifies this, area
      ensures Valid()
      ensures Flags() == L.LayStep(old(Flags())).flags
      ensures area.State() == AreaAfter(old(area.State()), L.LayStep(old(Flags())).calls)
    {
      prevGrabbed := true;
      planting := true;
      area.Place(id, transform.position, cubePositions);
      pendingPlants := pendingPlants + 1;  // StartCoroutine("Plant")
    }

    method Grab()
      requires Valid()
      modifies this, area
      ensures Valid()
      ensures Flags() == L.GrabStep(old(Flags())).flags
      ensures area.State() == AreaAfter(old(area.State()), L.GrabStep(old(Flags())).calls)
    {
      prevGrabbed := true;
      grabbed := true;
      delayedUngrabbed := false;
      Unlay();
    }

    method DelayedUngrab()
      requires Valid()
      modifies this
      ensures Valid()
      ensures Flags() == L.DelayedUngrabStep(old(Flags())).flags
    {
      delayedUngrabbed := true;
      pendingUngrabs := pendingUngrabs + 1;  // Invoke("Ungrab", 0)
    }

    method Ungrab()
      requires Valid()
      modifies this, transform, area
      ensures Valid()
      ensures Flags() == L.UngrabStep(old(Flags()), old(Lands(transform.position))).flags
      ensures area.State() == AreaAfter(old(area.State()), L.UngrabStep(old(Flags()), old(Lands(transform.position))).calls)
      ensures old(delayedUngrabbed) ==>
                RestsAt(old(area.occupant), cubePositions, id, SnapColumn(old(transform.position)), transform.position)
      ensures !old(delayedUngrabbed) ==> transform.position == old(transform.position)
    {
      if !delayedUngrabbed {
        return;
      }
      delayedUngrabbed := false;
      grabbed := false;
      var landed := Snap(transform);
      if landed {
        Lay();
      }
    }

    /** The scheduler delivers one queued `Ungrab`; nothing happens when none is queued. */
    method FireUngrab()
      requires Valid()
      modifies this, transform, area
      ensures Valid()
      ensures Flags() == L.FireUngrabStep(old(Flags()), old(Lands(transform.position))).flags
      ensures area.State() == AreaAfter(old(area.State()), L.FireUngrabStep(old(Flags()), old(Lands(transform.position))).calls)
      ensures old(pendingUngrabs) > 0 && old(delayedUngrabbed) ==>
                RestsAt(old(area.occupant), cubePositions, id, SnapColumn(old(transform.position)), transform.position)
      ensures !(old(pendingUngrabs) > 0 && old(delayedUngrabbed)) ==> transform.position == old(transform.position)
    {
      if pendingUngrabs > 0 {
        Ungrab();
        pendingUngrabs := pendingUngrabs - 1;
      }
    }

    /** The scheduler finishes one running `Plant` coroutine: the store commits the block. */
    method FirePlant()
      requires Valid()
      modifies this, area
      ensures Valid()
      ensures Flags() == L.FirePlantStep(old(Flags())).flags
      ensures area.State() == AreaAfter(old(area.State()), L.FirePlantStep(old(Flags())).calls)
    {
      if pendingPlants > 0 {
        pendingPlants := pendingPlants - 1;
        area.Plant(id);
      }
    }

    /** One tick, in which a falling block drops `drop` cells (the frame's fall step). */
    method Update(drop: nat)
      requires Valid()
      modifies this, transform, shadow, area
      ensures Valid()
      ensures old(grabbed) ==> transform.position == old(transform.position)
      ensures old(grabbed) ==>
                RestsAt(old(area.occupant), cubePositions, id, SnapColumn(old(transform.position)), shadow.position)
      ensures !old(grabbed) ==> shadow.position == old(shadow.position)
      ensures !old(grabbed) && old(planting) ==> transform.position == old(transform.position)
      ensures !old(grabbed) && !old(planting) ==>
                RestsAt(old(area.occupant), cubePositions, id, SnapColumn(Fall(old(transform.position), drop)), transform.position)
      ensures Flags() == L.TickStep(old(Flags()), old(Lands(Fall(transform.position, drop))), Supported()).flags
      ensures area.State() == AreaAfter(old(area.State()), L.TickStep(old(Flags()), old(Lands(Fall(transform.position, drop))), Supported()).calls)
    {
      if grabbed {
        shadow.position := transform.position;
        var _ := Snap(shadow);
      } else if !planting {
        transform.position := Fall(transform.position, drop);
        var start := SnapColumn(transform.position);
        var landed := Snap(transform);
        if landed {
          LandedIsSupported(area.occupant, cubePositions, id, start, transform.position);
          Lay();
        }
      }
      if planting {
        var under := Below(transform.position);
        if !IsOccupied(area.occupant, under, cubePositions, id) {
          ghost var before := area.occupant;
          Unlay();
          ReleaseKeepsOccupancy(before, id, under, cubePositions);
          assert [] + [CallUnplace] == [CallUnplace];
        }
      }
    }

    predicate IsAutoGrabbable()
      reads this
      ensures IsAutoGrabbable() <==> L.AutoGrabbable(Flags())
    {
      !prevGrabbed
    }
  }
}
