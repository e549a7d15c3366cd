/** The hooks `Pathfinder` (mgllib/world/world.py) gives the A* search it
    inherits: neighbours from the world's navigation graph, a Euclidean
    heuristic that also counts its own calls and gives up once the count
    reaches `max_depth`, and the goal test. The search loop belongs to the
    `astar` package and is not part of this model; `math.sqrt` is the
    function field `sqrt`. */
module Pathfinding {
  import opened Wrappers
  import opened Coords
  import opened World
  import opened Navmesh

  /** `MaxDepthReached`, the exception the heuristic raises. */
  datatype PathError = MaxDepthReached

  /** `a ** 2`. */
  function Square(a: int): (s: int)
    ensures s >= 0
    ensures s == 0 <==> a == 0
  {
    a * a
  }

  /** The squared Euclidean distance between two cells. */
  function SquaredDistance(n1: Cell, n2: Cell): (d: int)
    ensures d >= 0
    ensures d == 0 <==> n1 == n2
  {
    Square(n2.x - n1.x) + Square(n2.y - n1.y) + Square(n2.z - n1.z)
  }

  /** The squared distance does not depend on the order of the cells. */
  lemma SquaredDistanceSymmetric(n1: Cell, n2: Cell)
    ensures SquaredDistance(n1, n2) == SquaredDistance(n2, n1)
  {
  }

  class Pathfinder {
    const world: World
    /** Heuristic calls since the current search began. */
    var depth: int
    const maxDepth: int
    const sqrt: real -> real

    /** `Pathfinder(world, max_depth)`: no heuristic calls counted yet. */
    constructor (world: World, maxDepth: int, sqrt: real -> real)
      ensures this.world == world && this.maxDepth == maxDepth && this.sqrt == sqrt
      ensures depth == 0
    {
      this.world := world;
      this.maxDepth := maxDepth;
      this.sqrt := sqrt;
      depth := 0;
    }

    /** The part of `astar` before the inherited search: the call count
        starts again from zero. */
    method ResetSearch()
      modifies this`depth
      ensures depth == 0
    {
      depth := 0;
    }

    /** `neighbors(node)`: the node's list in the world's navigation graph,
        or no neighbours for a cell the graph does not hold. */
    function Neighbors(node: Cell): (ns: seq<Cell>)
      reads world`neighborMap
      ensures node in world.neighborMap ==> ns == world.neighborMap[node]
      ensures node !in world.neighborMap ==> ns == []
    {
      LookupNeighbors(world, node)
    }

    /** `distance_between(n1, n2)`: the square root of the squared
        distance. */
    function DistanceBetween(n1: Cell, n2: Cell): (d: real)
      ensures n1 == n2 ==> d == sqrt(0.0)
    {
      sqrt(SquaredDistance(n1, n2) as real)
    }

    /** The distance does not depend on the order of the cells. */
    lemma DistanceSymmetric(n1: Cell, n2: Cell)
      ensures DistanceBetween(n1, n2) == DistanceBetween(n2, n1)
    {
      SquaredDistanceSymmetric(n1, n2);
    }

    /** `heuristic_cost_estimate(current, goal)`: counts the call, fails
        with `MaxDepthReached` once the count reaches `maxDepth`, and
        otherwise estimates the cost by the distance to the goal. */
    method HeuristicCostEstimate(current: Cell, goal: Cell) returns (r: Result<real, PathError>)
      modifies this`depth
      ensures depth == old(depth) + 1
      ensures r.Err? <==> depth >= maxDepth
      ensures r.Err? ==> r.error == MaxDepthReached
      ensures r.Ok? ==> r.value == DistanceBetween(current, goal)
    {
      depth := depth + 1;
      if depth >= maxDepth {
        return Err(MaxDepthReached);
      }
      var distance := DistanceBetween(current, goal);
      return Ok(distance);
    }

    /** `is_goal_reached(current, goal)`: the search stops exactly at the
        goal cell. */
    predicate IsGoalReached(current: Cell, goal: Cell)
      ensures IsGoalReached(current, goal) <==> SquaredDistance(current, goal) == 0
    {
      current == goal
    }
  }
}
