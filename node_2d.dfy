/** A model of the 2-D search-graph node of the SMAC planner (smac_planner::Node2D):
    the grid-cell / linear-index mapping, the per-search flags and the
    accumulated cost of one node. */
module Node2D {

  /** `unsigned int` of the source: 32 bits. */
  const UINT32_LIMIT: nat := 0x1_0000_0000
  type Uint32 = n: nat | n < UINT32_LIMIT

  /** `unsigned char` costmap cost. */
  type Byte = n: nat | n < 256

  /** A cell of the grid. The source stores both coordinates as floats; here they
      are the exact naturals the integer division produces. */
  datatype Coordinates = Coordinates(x: nat, y: nat)

  /** getCoords either yields coordinates or raises an error when the
      motion model asks for more than one angle bin. */
  datatype CoordsResult = Coords(coords: Coordinates) | InvalidAngleQuantization

  /** Linear index of cell (x, y) in a grid of the given width, computed in
      unsigned 32-bit arithmetic, so the sum wraps around on overflow. */
  function GetIndex(x: Uint32, y: Uint32, width: Uint32): (r: Uint32)
    ensures x < width && x + y * width < UINT32_LIMIT ==> r % width == x && r / width == y
  {
    var r := (x + y * width) % UINT32_LIMIT;
    assert x < width ==> (x + y * width) % width == x && (x + y * width) / width == y by {
      if x < width { RowMajorDivMod(x, y, width); }
    }
    r
  }

  /** Dividing a row-major index by the width recovers the row and the column. */
  lemma {:induction false} RowMajorDivMod(x: nat, y: nat, width: nat)
    requires x < width
    ensures (x + y * width) % width == x && (x + y * width) / width == y
  {
    var r := x + y * width;
    var q, m := r / width, r % width;
    assert r == q * width + m;
    if q > y {
      MulMonotone(y + 1, q, width);
      assert false;
    } else if q < y {
      MulMonotone(q + 1, y, width);
      assert false;
    }
  }

  /** Cell of a linear index. Any angle-bin count other than 1 is an error;
      with one bin the width must be non-zero (the source divides by it). */
  function GetCoords(index: Uint32, width: Uint32, angles: Uint32): (r: CoordsResult)
    requires angles == 1 ==> width > 0
    ensures r.InvalidAngleQuantization? <==> angles != 1
    ensures r.Coords? ==> r.coords.x < width && r.coords.x + r.coords.y * width == index
  {
    if angles != 1 then InvalidAngleQuantization
    else Coords(Coordinates(index % width, index / width))
  }

  /** A cell lies in a width x height grid whose cell count fits in 32 bits. */
  predicate InGrid(x: nat, y: nat, width: nat, height: nat)
  {
    x < width && y < height && width * height <= UINT32_LIMIT
  }

  lemma {:induction false} RowMajorBound(x: nat, y: nat, width: nat, height: nat)
    requires x < width && y < height
    ensures x + y * width < width * height
  {
    calc {
      x + y * width;
    <  width + y * width;
    == (y + 1) * width;
    <= { MulMonotone(y + 1, height, width); }
      height * width;
    }
  }

  lemma {:induction false} MulMonotone(a: nat, b: nat, c: nat)
    requires a <= b
    ensures a * c <= b * c
  {
    var d := b - a;
    assert b * c == a * c + d * c;
  }

  /** The index of a cell inside the grid is below width * height, so no
      wrap-around happens. */
  lemma IndexInGrid(x: Uint32, y: Uint32, width: Uint32, height: nat)
    requires InGrid(x, y, width, height)
    ensures GetIndex(x, y, width) == x + y * width
    ensures GetIndex(x, y, width) < width * height
  {
    RowMajorBound(x, y, width, height);
  }

  /** Cell -> index -> cell is the identity for cells whose index does not overflow. */
  lemma IndexRoundTrip(x: Uint32, y: Uint32, width: Uint32)
    requires x < width && x + y * width < UINT32_LIMIT
    ensures GetCoords(GetIndex(x, y, width), width, 1) == Coords(Coordinates(x, y))
  {
  }

  /** Index -> cell -> index is the identity for every index. */
  lemma CoordsRoundTrip(index: Uint32, width: Uint32)
    requires width > 0
    ensures GetCoords(index, width, 1).Coords?
    ensures var c := GetCoords(index, width, 1).coords;
      c.y < UINT32_LIMIT && GetIndex(c.x, c.y, width) == index
  {
  }

  /** Distinct cells of one grid have distinct indices. */
  lemma IndexInjective(x1: Uint32, y1: Uint32, x2: Uint32, y2: Uint32, width: Uint32, height: nat)
    requires InGrid(x1, y1, width, height) && InGrid(x2, y2, width, height)
    ensures GetIndex(x1, y1, width) == GetIndex(x2, y2, width) <==> x1 == x2 && y1 == y2
  {
    IndexInGrid(x1, y1, width, height);
    IndexInGrid(x2, y2, width, height);
    if GetIndex(x1, y1, width) == GetIndex(x2, y2, width) {
      IndexRoundTrip(x1, y1, width);
      IndexRoundTrip(x2, y2, width);
    }
  }

  /** Without the in-grid condition the 32-bit index can wrap onto another cell:
      cell (0, 1) of a grid 2^31 wide has row-major index 2^31, but cell (0, 2)
      wraps to index 0, the index of cell (0, 0). */
  lemma IndexWrapsOutsideGrid()
    ensures GetIndex(0, 2, 0x8000_0000) == GetIndex(0, 0, 0x8000_0000)
  {
  }

  /** The two per-search flags of a node. */
  datatype SearchFlags = SearchFlags(wasVisited: bool, isQueued: bool)

  datatype FlagEvent = Visit | Queue

  /** Effect of visited() and queued() on the flags. */
  function ApplyFlagEvent(f: SearchFlags, e: FlagEvent): (r: SearchFlags)
    ensures e == Visit ==> r.wasVisited && !r.isQueued
    ensures e == Queue ==> r.isQueued && r.wasVisited == f.wasVisited
  {
    match e
    case Visit => SearchFlags(true, false)
    case Queue => f.(isQueued := true)
  }

  /** Flags after a sequence of visited()/queued() calls, in order. */
  function ReplayFlags(f: SearchFlags, events: seq<FlagEvent>): SearchFlags
    decreases |events|
  {
    if events == [] then f
    else ReplayFlags(ApplyFlagEvent(f, events[0]), events[1..])
  }

  /** Once visited, a node stays visited; it becomes visited exactly when some
      call was visited(). */
  lemma {:induction false} VisitedIsPermanent(f: SearchFlags, events: seq<FlagEvent>)
    ensures ReplayFlags(f, events).wasVisited <==> f.wasVisited || Visit in events
    decreases |events|
  {
    if events != [] {
      VisitedIsPermanent(ApplyFlagEvent(f, events[0]), events[1..]);
      assert events == [events[0]] + events[1..];
    }
  }

  /** The queued flag is decided by the last call alone: queued() leaves it set,
      visited() leaves it clear. */
  lemma {:induction false} QueuedFollowsLastEvent(f: SearchFlags, events: seq<FlagEvent>)
    ensures ReplayFlags(f, events).isQueued <==>
      if events == [] then f.isQueued else events[|events| - 1] == Queue
    decreases |events|
  {
    if events != [] {
      QueuedFollowsLastEvent(ApplyFlagEvent(f, events[0]), events[1..]);
    }
  }

  /** One node of the search graph: its costmap cost, the accumulated cost of
      the best path found to it, its own index and the two search flags. */
  class Node2D {
    var parent: Node2D?
    var cellCost: real
    var accumulatedCost: real
    var index: Uint32
    var wasVisited: bool
    var isQueued: bool

    /** Stores the costmap cost and the index; the other fields start unspecified. */
    constructor (costIn: Byte, index: Uint32)
      ensures GetCost() == costIn as real && GetIndex() == index
    {
      this.parent := null;
      this.cellCost := costIn as real;
      this.accumulatedCost := 0.0;
      this.index := index;
      this.wasVisited := false;
      this.isQueued := false;
    }

    function Flags(): SearchFlags
      reads this
    {
      SearchFlags(wasVisited, isQueued)
    }

    /** Nodes are equal when their cell indices are, so every node equals itself. */
    predicate Equals(rhs: Node2D): (r: bool)
      reads this, rhs
      ensures this == rhs ==> r
    {
      index == rhs.index
    }

    /** The accumulated cost of the best path found so far, as last set. */
    function GetAccumulatedCost(): (r: real)
      reads this
      ensures r == accumulatedCost
    {
      accumulatedCost
    }

    method SetAccumulatedCost(costIn: real)
      modifies this`accumulatedCost
      ensures GetAccumulatedCost() == costIn
    {
      accumulatedCost := costIn;
    }

    /** The costmap cost the node was built with. */
    function GetCost(): (r: real)
      reads this
      ensures r == cellCost
    {
      cellCost
    }

    /** The node's own cell index, the key `Equals` compares. */
    function GetIndex(): (r: Uint32)
      reads this
      ensures r == index
    {
      index
    }

    /** Marks the node as expanded: visited and no longer queued. */
    method Visited()
      modifies this`wasVisited, this`isQueued
      ensures Flags() == ApplyFlagEvent(old(Flags()), Visit)
      ensures wasVisited && !isQueued
    {
      wasVisited := true;
      isQueued := false;
    }

    /** Marks the node as present in the frontier; the visited flag is untouched. */
    method Queued()
      modifies this`isQueued
      ensures Flags() == ApplyFlagEvent(old(Flags()), Queue)
      ensures isQueued && wasVisited == old(wasVisited)
    {
      isQueued := true;
    }
  }

  /** Node equality is an equivalence relation. */
  lemma EqualsIsEquivalence(a: Node2D, b: Node2D, c: Node2D)
    ensures a.Equals(a)
    ensures a.Equals(b) <==> b.Equals(a)
    ensures a.Equals(b) && b.Equals(c) ==> a.Equals(c)
  {
  }

  /** Two nodes of one grid are equal exactly when they sit on the same cell. */
  lemma EqualsIffSameCell(a: Node2D, b: Node2D, width: Uint32)
    requires width > 0
    ensures a.Equals(b) <==> GetCoords(a.index, width, 1) == GetCoords(b.index, width, 1)
  {
    CoordsRoundTrip(a.index, width);
    CoordsRoundTrip(b.index, width);
  }
}
