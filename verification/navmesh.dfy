/** The navigation graph of the world (mgllib/world/world.py): which cells
    a walker can stand in, the twelve steps it may take, and `gen_navmesh`,
    which finds a seed cell, floods the graph from it breadth first and then
    adds diagonal steps on level ground. The graph is the world's
    `neighborMap`; these operations read the block store and write only
    that map. */
module Navmesh {
  import opened Wrappers
  import opened Dicts
  import opened Coords
  import opened World

  /** `VALID_MOVEMENT_DIRECTIONS`: four level steps, four up a block, four
      down a block. */
  const VALID_MOVEMENT_DIRECTIONS: seq<Cell> := [
    Cell(1, 0, 0), Cell(-1, 0, 0), Cell(0, 0, 1), Cell(0, 0, -1),
    Cell(1, 1, 0), Cell(-1, 1, 0), Cell(0, 1, 1), Cell(0, 1, -1),
    Cell(1, -1, 0), Cell(-1, -1, 0), Cell(0, -1, 1), Cell(0, -1, -1)
  ]

  /** One entry of `DIAGONAL_CHECKS`: a diagonal step and the two level
      steps around its corner. */
  datatype DiagonalCheck = DiagonalCheck(diagonal: Cell, corners: seq<Cell>)

  /** `DIAGONAL_CHECKS`, in its insertion order. */
  const DIAGONAL_CHECKS: seq<DiagonalCheck> := [
    DiagonalCheck(Cell(1, 0, 1), [Cell(1, 0, 0), Cell(0, 0, 1)]),
    DiagonalCheck(Cell(-1, 0, 1), [Cell(-1, 0, 0), Cell(0, 0, 1)]),
    DiagonalCheck(Cell(1, 0, -1), [Cell(1, 0, 0), Cell(0, 0, -1)]),
    DiagonalCheck(Cell(-1, 0, -1), [Cell(-1, 0, 0), Cell(0, 0, -1)])
  ]

  /** The cell `dy` above `p` (below it when `dy` is negative). */
  function Above(p: Cell, dy: int): (q: Cell)
    ensures q.x == p.x && q.z == p.z && q.y == p.y + dy
  {
    Cell(p.x, p.y + dy, p.z)
  }

  /** `get_block(p)` is truthy: the cell holds a block; in a well-formed
      store, exactly when the cell is occupied. */
  predicate Solid(w: World, p: Cell)
    reads w`chunks, w.chunks.Values`blocks
    ensures w.Structure() ==> (Solid(w, p) <==> p in w.occupied)
  {
    StoredIfStructured(w, p);
    w.GetBlock(p) != null
  }

  /** `get_block` routes to the occupied cells of a well-formed store. */
  lemma StoredIfStructured(w: World, p: Cell)
    ensures w.Structure() ==> (w.GetBlock(p) != null <==> p in w.occupied)
  {
    if w.Structure() {
      w.GetBlockRoutes(p);
    }
  }

  /** `valid_pathing_block`: a block underfoot and the cell itself and the
      two above it empty. In a well-formed store a walker can stand in a
      cell exactly when the cell below is occupied and the cell and the two
      above it are not. */
  predicate ValidPathing(w: World, p: Cell)
    reads w`chunks, w.chunks.Values`blocks
    ensures w.Structure() ==> (ValidPathing(w, p) <==>
      && Above(p, -1) in w.occupied
      && p !in w.occupied && Above(p, 1) !in w.occupied && Above(p, 2) !in w.occupied)
  {
    Solid(w, Above(p, -1)) && !(Solid(w, p) || Solid(w, Above(p, 1)) || Solid(w, Above(p, 2)))
  }

  /** The valid cells among the first n movement directions from p, in
      list order. */
  function ValidSteps(w: World, p: Cell, n: nat): seq<Cell>
    requires n <= |VALID_MOVEMENT_DIRECTIONS|
    reads w`chunks, w.chunks.Values`blocks
  {
    if n == 0 then []
    else
      var q := Add(p, VALID_MOVEMENT_DIRECTIONS[n - 1]);
      ValidSteps(w, p, n - 1) + (if ValidPathing(w, q) then [q] else [])
  }

  /** The valid cells one movement direction away, in list order. */
  function Steps(w: World, p: Cell): (s: seq<Cell>)
    reads w`chunks, w.chunks.Values`blocks
    ensures |s| <= |VALID_MOVEMENT_DIRECTIONS|
    ensures forall q :: q in s ==> ValidPathing(w, q)
  {
    ValidStepsMembers(w, p, |VALID_MOVEMENT_DIRECTIONS|);
    ValidStepsLength(w, p, |VALID_MOVEMENT_DIRECTIONS|);
    ValidSteps(w, p, |VALID_MOVEMENT_DIRECTIONS|)
  }

  /** At most one cell per direction. */
  lemma {:induction false} ValidStepsLength(w: World, p: Cell, n: nat)
    requires n <= |VALID_MOVEMENT_DIRECTIONS|
    ensures |ValidSteps(w, p, n)| <= n
  {
    if n > 0 {
      ValidStepsLength(w, p, n - 1);
    }
  }

  /** `path_neighbors`: the valid cells one movement direction away. */
  method PathNeighbors(w: World, p: Cell) returns (blocks: seq<Cell>)
    ensures blocks == Steps(w, p)
  {
    blocks := [];
    for i := 0 to |VALID_MOVEMENT_DIRECTIONS|
      invariant blocks == ValidSteps(w, p, i)
    {
      var basePos := Add(p, VALID_MOVEMENT_DIRECTIONS[i]);
      if ValidPathing(w, basePos) {
        blocks := blocks + [basePos];
      }
    }
  }

  /** A cell is listed exactly when it is valid and one of the first n
      directions away. */
  lemma {:induction false} ValidStepsMembers(w: World, p: Cell, n: nat)
    requires n <= |VALID_MOVEMENT_DIRECTIONS|
    ensures forall q :: q in ValidSteps(w, p, n) <==>
      exists k :: 0 <= k < n && q == Add(p, VALID_MOVEMENT_DIRECTIONS[k]) && ValidPathing(w, q)
  {
    if n > 0 {
      ValidStepsMembers(w, p, n - 1);
    }
  }

  /** The list is empty exactly when no direction is valid; otherwise its
      head is the valid cell of the earliest direction. */
  lemma {:induction false} ValidStepsHead(w: World, p: Cell, n: nat)
    requires n <= |VALID_MOVEMENT_DIRECTIONS|
    ensures |ValidSteps(w, p, n)| > 0 <==>
      exists k :: 0 <= k < n && ValidPathing(w, Add(p, VALID_MOVEMENT_DIRECTIONS[k]))
    ensures |ValidSteps(w, p, n)| > 0 ==>
      exists k :: 0 <= k < n && ValidSteps(w, p, n)[0] == Add(p, VALID_MOVEMENT_DIRECTIONS[k])
        && ValidPathing(w, Add(p, VALID_MOVEMENT_DIRECTIONS[k]))
        && forall j :: 0 <= j < k ==> !ValidPathing(w, Add(p, VALID_MOVEMENT_DIRECTIONS[j]))
  {
    if n > 0 {
      ValidStepsHead(w, p, n - 1);
      if |ValidSteps(w, p, n - 1)| == 0 && ValidPathing(w, Add(p, VALID_MOVEMENT_DIRECTIONS[n - 1])) {
        assert ValidSteps(w, p, n)[0] == Add(p, VALID_MOVEMENT_DIRECTIONS[n - 1]);
      }
    }
  }

  /** `find_valid_path_destination`: the cell itself, the one below, the
      one above, the first valid neighbour, or nothing, in that order of
      preference. */
  method FindValidPathDestination(w: World, p: Cell) returns (r: Option<Cell>)
    ensures r.Some? ==> ValidPathing(w, r.value)
    ensures ValidPathing(w, p) ==> r == Some(p)
    ensures !ValidPathing(w, p) && ValidPathing(w, Above(p, -1)) ==> r == Some(Above(p, -1))
    ensures !ValidPathing(w, p) && !ValidPathing(w, Above(p, -1)) && ValidPathing(w, Above(p, 1)) ==>
      r == Some(Above(p, 1))
    ensures !ValidPathing(w, p) && !ValidPathing(w, Above(p, -1)) && !ValidPathing(w, Above(p, 1)) ==>
      && (r.Some? <==> exists k :: 0 <= k < 12 && ValidPathing(w, Add(p, VALID_MOVEMENT_DIRECTIONS[k])))
      && (r.Some? ==>
            exists k :: 0 <= k < 12 && r.value == Add(p, VALID_MOVEMENT_DIRECTIONS[k])
              && forall j :: 0 <= j < k ==> !ValidPathing(w, Add(p, VALID_MOVEMENT_DIRECTIONS[j])))
  {
    if ValidPathing(w, p) {
      return Some(p);
    }
    var below := Above(p, -1);
    if ValidPathing(w, below) {
      return Some(below);
    }
    var above := Above(p, 1);
    if ValidPathing(w, above) {
      return Some(above);
    }
    var neighbors := PathNeighbors(w, p);
    ValidStepsHead(w, p, |VALID_MOVEMENT_DIRECTIONS|);
    if |neighbors| > 0 {
      return Some(neighbors[0]);
    }
    return None;
  }

  /** `lookup_neighbors`: the cell's list in the graph, or no neighbours
      for a cell the graph does not hold. */
  function LookupNeighbors(w: World, p: Cell): (ns: seq<Cell>)
    reads w`neighborMap
    ensures p in w.neighborMap ==> ns == w.neighborMap[p]
    ensures p !in w.neighborMap ==> ns == []
  {
    if p in w.neighborMap then w.neighborMap[p] else []
  }

  /** The seed scan of `gen_navmesh` from step i on: at each step the cell
      i above the origin, then the cell i below it. */
  function ScanFrom(w: World, origin: Cell, i: int, scanRange: int): Option<Cell>
    reads w`chunks, w.chunks.Values`blocks
    decreases scanRange - i
  {
    if i >= scanRange then None
    else if ValidPathing(w, Above(origin, i)) then Some(Above(origin, i))
    else if ValidPathing(w, Above(origin, -i)) then Some(Above(origin, -i))
    else ScanFrom(w, origin, i + 1, scanRange)
  }

  /** Step k of the scan finds nothing: neither the cell k above the
      origin nor the cell k below it is valid. */
  predicate ScanMisses(w: World, origin: Cell, k: int)
    reads w`chunks, w.chunks.Values`blocks
  {
    !ValidPathing(w, Above(origin, k)) && !ValidPathing(w, Above(origin, -k))
  }

  /** Step k of the scan finds s: the cell k above the origin, or, when that
      one is not valid, the cell k below it. */
  predicate ScanHits(w: World, origin: Cell, k: int, s: Cell)
    reads w`chunks, w.chunks.Values`blocks
  {
    && ValidPathing(w, s)
    && (s == Above(origin, k) || (!ValidPathing(w, Above(origin, k)) && s == Above(origin, -k)))
  }

  /** Whatever the scan finds is a valid cell. */
  lemma {:induction false} ScanValid(w: World, origin: Cell, i: int, scanRange: int)
    ensures ScanFrom(w, origin, i, scanRange).Some? ==> ValidPathing(w, ScanFrom(w, origin, i, scanRange).value)
    decreases scanRange - i
  {
    if i < scanRange && !ValidPathing(w, Above(origin, i)) && !ValidPathing(w, Above(origin, -i)) {
      ScanValid(w, origin, i + 1, scanRange);
    }
  }

  /** The scan finds the first valid cell in its order, checking up before
      down at each step, and finds nothing only when no step has one. */
  lemma {:induction false} ScanFinds(w: World, origin: Cell, i: int, scanRange: int)
    ensures ScanFrom(w, origin, i, scanRange).Some? ==>
      exists k :: i <= k < scanRange && ScanHits(w, origin, k, ScanFrom(w, origin, i, scanRange).value)
        && forall j :: i <= j < k ==> ScanMisses(w, origin, j)
    ensures ScanFrom(w, origin, i, scanRange).None? ==>
      forall k :: i <= k < scanRange ==> ScanMisses(w, origin, k)
    decreases scanRange - i
  {
    if i < scanRange && ScanMisses(w, origin, i) {
      ScanFinds(w, origin, i + 1, scanRange);
      if ScanFrom(w, origin, i, scanRange).Some? {
        var k :| i + 1 <= k < scanRange && ScanHits(w, origin, k, ScanFrom(w, origin, i, scanRange).value)
          && forall j :: i + 1 <= j < k ==> ScanMisses(w, origin, j);
        assert forall j :: i <= j < k ==> ScanMisses(w, origin, j);
      }
    } else if i < scanRange {
      assert ScanHits(w, origin, i, ScanFrom(w, origin, i, scanRange).value);
    }
  }

  /** The scanning loop of `gen_navmesh`. */
  method FindSeed(w: World, origin: Cell, scanRange: int) returns (seed: Option<Cell>)
    ensures seed == ScanFrom(w, origin, 0, scanRange)
  {
    var i := 0;
    while i < scanRange
      invariant ScanFrom(w, origin, 0, scanRange) == ScanFrom(w, origin, i, scanRange)
      decreases scanRange - i
    {
      var up := Above(origin, i);
      if ValidPathing(w, up) {
        return Some(up);
      }
      var down := Above(origin, -i);
      if ValidPathing(w, down) {
        return Some(down);
      }
      i := i + 1;
    }
    return None;
  }

  /** The cells of ns not yet seen, each once, in order of first
      appearance: what the inner loop of the flood appends to `remaining`. */
  function NewCells(ns: seq<Cell>, seen: set<Cell>): seq<Cell> {
    if ns == [] then []
    else if ns[0] in seen then NewCells(ns[1..], seen)
    else [ns[0]] + NewCells(ns[1..], seen + {ns[0]})
  }

  /** The new cells are distinct, unseen and taken from ns; with them every
      cell of ns has been seen. */
  lemma {:induction false} NewCellsFacts(ns: seq<Cell>, seen: set<Cell>)
    ensures Distinct(NewCells(ns, seen))
    ensures forall c :: c in NewCells(ns, seen) ==> c in ns && c !in seen
    ensures forall c :: c in ns ==> c in seen || c in NewCells(ns, seen)
    ensures NewCells(ns, seen) == [] <==> forall c :: c in ns ==> c in seen
  {
    if ns != [] {
      if ns[0] in seen {
        NewCellsFacts(ns[1..], seen);
      } else {
        NewCellsFacts(ns[1..], seen + {ns[0]});
        assert NewCells(ns, seen)[0] == ns[0];
      }
    }
  }

  /** The inner loop of the flood: append each unseen neighbour to
      `remaining` and mark it seen. */
  method Enqueue(ns: seq<Cell>, remaining: seq<Cell>, seen: set<Cell>)
    returns (remaining': seq<Cell>, seen': set<Cell>)
    ensures remaining' == remaining + NewCells(ns, seen)
    ensures seen' == seen + Members(ns)
  {
    remaining' := remaining;
    seen' := seen;
    for i := 0 to |ns|
      invariant remaining' + NewCells(ns[i..], seen') == remaining + NewCells(ns, seen)
      invariant seen' == seen + Members(ns[..i])
    {
      assert ns[i..][1..] == ns[i + 1..];
      assert ns[..i + 1] == ns[..i] + [ns[i]];
      if ns[i] !in seen' {
        remaining' := remaining' + [ns[i]];
        seen' := seen' + {ns[i]};
      }
    }
    assert ns[..|ns|] == ns;
  }

  /** The visiting order of a flood from origin: it starts at the origin,
      holds every cell once, and each later cell is one step from its
      parent, an earlier cell. */
  ghost predicate FloodOrder(w: World, origin: Cell, order: seq<Cell>, parent: seq<nat>)
    reads w`chunks, w.chunks.Values`blocks
  {
    && |order| > 0 && order[0] == origin && Distinct(order) && |parent| == |order|
    && forall i {:trigger parent[i]} :: 0 < i < |order| ==>
         parent[i] < i && order[i] in Steps(w, order[parent[i]])
  }

  /** Every cell a flood from a valid origin visits is valid: it is the
      origin or a step from another cell. */
  lemma FloodOrderValid(w: World, origin: Cell, order: seq<Cell>, parent: seq<nat>)
    requires FloodOrder(w, origin, order, parent) && ValidPathing(w, origin)
    ensures forall c :: c in order ==> ValidPathing(w, c)
  {
    forall c | c in order
      ensures ValidPathing(w, c)
    {
      var i :| 0 <= i < |order| && order[i] == c;
      if i > 0 {
        assert parent[i] < i;
        ValidStepsMembers(w, order[parent[i]], |VALID_MOVEMENT_DIRECTIONS|);
      }
    }
  }

  /** No step leads out of the cells. */
  ghost predicate Closed(w: World, cells: seq<Cell>)
    reads w`chunks, w.chunks.Values`blocks
  {
    forall c, n :: c in cells && n in Steps(w, c) ==> n in cells
  }

  /** What a flood from `seed` (none: no flood) leaves in the graph, which
      held `graph0` before: the visiting order is a flood order and closed
      under steps, its cells get their step lists, the other entries stay,
      and no other key appears. */
  ghost predicate FloodResult(w: World, seed: Option<Cell>, graph0: map<Cell, seq<Cell>>,
                              order: seq<Cell>, parent: seq<nat>, graph: map<Cell, seq<Cell>>)
    reads w`chunks, w.chunks.Values`blocks
  {
    && (seed.None? ==> order == [])
    && (seed.Some? ==> FloodOrder(w, seed.value, order, parent) && Closed(w, order))
    && (forall c :: c in graph <==> c in graph0 || c in order)
    && (forall c :: c in order ==> graph[c] == Steps(w, c))
    && (forall c :: c in graph0 && c !in order ==> graph[c] == graph0[c])
  }

  /** The flood fill of `gen_navmesh`: breadth first from the origin, each
      visited cell gets its `path_neighbors` list, and each cell is queued
      once. The graph's other entries stay as they were. */
  method Flood(w: World, origin: Cell) returns (ghost order: seq<Cell>, ghost parent: seq<nat>)
    requires w.Structure() && ValidPathing(w, origin)
    modifies w`neighborMap
    ensures FloodResult(w, Some(origin), old(w.neighborMap), order, parent, w.neighborMap)
  {
    var graph;
    graph, order, parent := FloodFrom(w, origin, w.neighborMap);
    w.neighborMap := graph;
  }

  /** Every cell of the list has been queued. */
  predicate AllSeen(ns: seq<Cell>, seen: set<Cell>) {
    forall k :: 0 <= k < |ns| ==> ns[k] in seen
  }

  /** The cells a list holds. */
  function Members(ns: seq<Cell>): (m: set<Cell>)
    ensures forall c :: c in m <==> c in ns
  {
    set c | c in ns
  }

  /** n copies of v. */
  function Repeat(n: nat, v: nat): (r: seq<nat>)
    ensures |r| == n && forall i :: 0 <= i < n ==> r[i] == v
  {
    seq(n, _ => v)
  }

  /** The cells a walker could stand in on top of some block: every valid
      cell is one of them. */
  ghost function Cands(w: World): set<Cell>
    reads w`occupied
  {
    set q | q in w.occupied :: Above(q, 1)
  }

  /** The state of the flood after `head` turns: the visiting order so
      far, starting at the origin, with its parent links through the graph;
      the queued cells `seen`, exactly the cells of the order; the lists of
      the first `head` cells written into the graph, every cell they list
      queued; and the rest of the graph as it was. */
  ghost predicate FloodInv(w: World, origin: Cell, graph0: map<Cell, seq<Cell>>, order: seq<Cell>,
                           parent: seq<nat>, head: nat, seen: set<Cell>, graph: map<Cell, seq<Cell>>)
    reads w`chunks, w.chunks.Values`blocks
  {
    && Linked(order, parent, head, graph) && order[0] == origin
    && SeenIsOrder(order, seen)
    && Written(w, order, head, seen, graph)
    && Kept(graph0, order, head, graph)
  }

  /** The order holds each cell once, and each later cell is listed in the
      graph under its parent, an earlier cell among the first `head`. */
  ghost predicate Linked(order: seq<Cell>, parent: seq<nat>, head: nat, graph: map<Cell, seq<Cell>>) {
    && head <= |order| && |order| > 0 && Distinct(order) && |parent| == |order|
    && forall i {:trigger parent[i]} :: 0 < i < |order| ==>
         parent[i] < i && parent[i] < head && order[parent[i]] in graph && order[i] in graph[order[parent[i]]]
  }

  /** The queued cells are the cells of the order. */
  ghost predicate SeenIsOrder(order: seq<Cell>, seen: set<Cell>) {
    forall c :: c in seen <==> c in order
  }

  /** The first `head` cells of the order have their lists in the graph,
      and every cell those lists hold is queued. */
  ghost predicate Written(w: World, order: seq<Cell>, head: nat, seen: set<Cell>, graph: map<Cell, seq<Cell>>)
    reads w`chunks, w.chunks.Values`blocks
  {
    forall i {:trigger order[i]} :: 0 <= i < head && i < |order| ==>
      order[i] in graph && graph[order[i]] == Steps(w, order[i]) && AllSeen(graph[order[i]], seen)
  }

  /** The graph's keys are its old keys and the first `head` cells of the
      order, and the entries the flood has not visited are unchanged. */
  ghost predicate Kept(graph0: map<Cell, seq<Cell>>, order: seq<Cell>, head: nat, graph: map<Cell, seq<Cell>>)
    requires head <= |order|
  {
    && (forall c :: c in graph <==> c in graph0 || c in order[..head])
    && (forall c :: c in graph0 && c !in order[..head] ==> graph[c] == graph0[c])
  }

  /** The loop of the flood fill, writing the lists into `graph`. It reads
      the block store only, never the graph, so the lists are stored in
      the world's map once the loop is done. */
  method FloodFrom(w: World, origin: Cell, graph0: map<Cell, seq<Cell>>)
    returns (graph: map<Cell, seq<Cell>>, ghost order: seq<Cell>, ghost parent: seq<nat>)
    requires w.Structure() && ValidPathing(w, origin)
    ensures FloodResult(w, Some(origin), graph0, order, parent, graph)
  {
    graph := graph0;
    var remaining := [origin];
    var seen := {origin};
    order := [origin];
    parent := [0];
    ghost var head: nat := 0;
    assert origin == Above(Above(origin, -1), 1);
    assert order[..0] == [];
    while |remaining| > 0
      invariant head <= |order| && remaining == order[head..]
      invariant FloodInv(w, origin, graph0, order, parent, head, seen, graph)
      invariant seen <= Cands(w)
      decreases |Cands(w) - seen|, |remaining|
    {
      order, parent, head, seen, graph, remaining :=
        Visit(w, origin, graph0, order, parent, head, seen, graph, remaining);
    }
    FloodDone(w, origin, graph0, order, parent, seen, graph);
  }

  /** One turn of the flood: the head of the queue gets its list in the
      graph and its unseen steps join the queue. */
  method Visit(w: World, origin: Cell, graph0: map<Cell, seq<Cell>>, ghost order: seq<Cell>,
               ghost parent: seq<nat>, ghost head: nat, seen: set<Cell>,
               graph: map<Cell, seq<Cell>>, remaining: seq<Cell>)
    returns (ghost order': seq<Cell>, ghost parent': seq<nat>, ghost head': nat,
             seen': set<Cell>, graph': map<Cell, seq<Cell>>, remaining': seq<Cell>)
    requires w.Structure() && FloodInv(w, origin, graph0, order, parent, head, seen, graph)
    requires seen <= Cands(w) && head < |order| && remaining == order[head..]
    ensures head' <= |order'| && remaining' == order'[head'..]
    ensures FloodInv(w, origin, graph0, order', parent', head', seen', graph')
    ensures seen' <= Cands(w)
    ensures |Cands(w) - seen'| < |Cands(w) - seen|
      || (|Cands(w) - seen'| == |Cands(w) - seen| && |remaining'| < |remaining|)
  {
    var cur := remaining[0];
    assert cur == order[head];
    var neighbors := PathNeighbors(w, cur);
    FloodTurn(w, origin, graph0, order, parent, head, seen, graph, neighbors);
    FloodGap(w, cur, seen);
    var queue;
    queue, seen' := Enqueue(neighbors, remaining, seen);
    QueueShift(order, head, NewCells(neighbors, seen));
    graph' := graph[cur := neighbors];
    parent' := parent + Repeat(|NewCells(neighbors, seen)|, head);
    order' := order + NewCells(neighbors, seen);
    remaining' := queue[1..];
    head' := head + 1;
  }

  /** Taking the head off the queue and appending new cells keeps the
      queue the unvisited tail of the order. */
  lemma QueueShift(order: seq<Cell>, head: nat, added: seq<Cell>)
    requires head < |order|
    ensures (order[head..] + added)[1..] == (order + added)[head + 1..]
  {
  }

  /** One turn of the flood: the head cell's list goes into the graph and
      its new steps are queued. */
  lemma FloodTurn(w: World, origin: Cell, graph0: map<Cell, seq<Cell>>, order: seq<Cell>,
                  parent: seq<nat>, head: nat, seen: set<Cell>, graph: map<Cell, seq<Cell>>,
                  neighbors: seq<Cell>)
    requires FloodInv(w, origin, graph0, order, parent, head, seen, graph)
    requires head < |order| && neighbors == Steps(w, order[head])
    ensures FloodInv(w, origin, graph0, order + NewCells(neighbors, seen),
                     parent + Repeat(|NewCells(neighbors, seen)|, head), head + 1,
                     seen + Members(neighbors), graph[order[head] := neighbors])
  {
    TurnLinked(order, parent, head, seen, graph, neighbors);
    TurnSeen(order, seen, neighbors);
    TurnWritten(w, order, head, seen, graph, neighbors);
    TurnKept(graph0, order, head, graph, neighbors);
  }

  lemma TurnLinked(order: seq<Cell>, parent: seq<nat>, head: nat, seen: set<Cell>,
                   graph: map<Cell, seq<Cell>>, neighbors: seq<Cell>)
    requires Linked(order, parent, head, graph) && SeenIsOrder(order, seen) && head < |order|
    ensures Linked(order + NewCells(neighbors, seen), parent + Repeat(|NewCells(neighbors, seen)|, head),
                   head + 1, graph[order[head] := neighbors])
  {
    NewCellsFacts(neighbors, seen);
    var added := NewCells(neighbors, seen);
    var order' := order + added;
    var parent' := parent + Repeat(|added|, head);
    var graph' := graph[order[head] := neighbors];
    forall i, j | 0 <= i < j < |order'|
      ensures order'[i] != order'[j]
    {
      if j >= |order| {
        assert order'[j] in added;
        if i >= |order| {
          assert added[i - |order|] != added[j - |order|];
        } else {
          assert order'[i] in seen;
        }
      }
    }
    forall i | 0 < i < |order'|
      ensures parent'[i] < i && parent'[i] < head + 1
      ensures order'[parent'[i]] in graph' && order'[i] in graph'[order'[parent'[i]]]
    {
      if i < |order| {
        assert parent'[i] == parent[i] && order'[parent[i]] == order[parent[i]];
        assert order[parent[i]] != order[head];
      } else {
        assert parent'[i] == head && order'[head] == order[head];
        assert order'[i] in added;
      }
    }
  }

  lemma TurnSeen(order: seq<Cell>, seen: set<Cell>, neighbors: seq<Cell>)
    requires SeenIsOrder(order, seen)
    ensures SeenIsOrder(order + NewCells(neighbors, seen), seen + Members(neighbors))
  {
    NewCellsFacts(neighbors, seen);
  }

  lemma TurnWritten(w: World, order: seq<Cell>, head: nat, seen: set<Cell>,
                    graph: map<Cell, seq<Cell>>, neighbors: seq<Cell>)
    requires Written(w, order, head, seen, graph) && Distinct(order)
    requires head < |order| && neighbors == Steps(w, order[head])
    ensures Written(w, order + NewCells(neighbors, seen), head + 1, seen + Members(neighbors),
                    graph[order[head] := neighbors])
  {
    var order' := order + NewCells(neighbors, seen);
    var seen' := seen + Members(neighbors);
    var graph' := graph[order[head] := neighbors];
    forall i | 0 <= i < head + 1 && i < |order'|
      ensures order'[i] in graph' && graph'[order'[i]] == Steps(w, order'[i])
      ensures AllSeen(graph'[order'[i]], seen')
    {
      assert order'[i] == order[i];
      if i < head {
        assert order[i] != order[head];
        assert AllSeen(graph[order[i]], seen);
      }
    }
  }

  lemma TurnKept(graph0: map<Cell, seq<Cell>>, order: seq<Cell>, head: nat,
                 graph: map<Cell, seq<Cell>>, neighbors: seq<Cell>)
    requires head < |order| && Kept(graph0, order, head, graph)
    ensures forall added :: Kept(graph0, order + added, head + 1, graph[order[head] := neighbors])
  {
    forall added: seq<Cell>
      ensures Kept(graph0, order + added, head + 1, graph[order[head] := neighbors])
    {
      assert (order + added)[..head + 1] == order[..head] + [order[head]];
    }
  }

  /** A turn never queues a cell that stands on nothing, so the count of
      unqueued candidates drops unless the turn queues nothing. */
  lemma FloodGap(w: World, p: Cell, seen: set<Cell>)
    requires w.Structure() && seen <= Cands(w)
    ensures seen + Members(Steps(w, p)) <= Cands(w)
    ensures |Cands(w) - (seen + Members(Steps(w, p)))| <= |Cands(w) - seen|
    ensures |Cands(w) - (seen + Members(Steps(w, p)))| < |Cands(w) - seen| || NewCells(Steps(w, p), seen) == []
  {
    NeighborsCandidates(w, p);
    NewCellsFacts(Steps(w, p), seen);
    GapShrinks(Cands(w), seen, seen + Members(Steps(w, p)));
  }

  /** Every cell one step from a cell stands on top of a block. */
  lemma NeighborsCandidates(w: World, p: Cell)
    requires w.Structure()
    ensures Members(Steps(w, p)) <= Cands(w)
  {
    ValidStepsMembers(w, p, |VALID_MOVEMENT_DIRECTIONS|);
    forall c | c in Steps(w, p)
      ensures c in Cands(w)
    {
      assert c == Above(Above(c, -1), 1);
    }
  }

  /** Once the queue is empty every cell of the order has its list in the
      graph, no step leads out of the order, and each later cell is a step
      from its parent. */
  lemma FloodDone(w: World, origin: Cell, graph0: map<Cell, seq<Cell>>, order: seq<Cell>,
                  parent: seq<nat>, seen: set<Cell>, graph: map<Cell, seq<Cell>>)
    requires FloodInv(w, origin, graph0, order, parent, |order|, seen, graph)
    ensures FloodResult(w, Some(origin), graph0, order, parent, graph)
  {
    assert order[..|order|] == order;
    forall i | 0 < i < |order|
      ensures order[i] in Steps(w, order[parent[i]])
    {
      assert graph[order[parent[i]]] == Steps(w, order[parent[i]]);
    }
    forall c, n | c in order && n in Steps(w, c)
      ensures n in order
    {
      var i :| 0 <= i < |order| && order[i] == c;
      var k :| 0 <= k < |graph[c]| && graph[c][k] == n;
      assert AllSeen(graph[order[i]], seen);
    }
    forall c | c in order
      ensures graph[c] == Steps(w, c)
    {
      var i :| 0 <= i < |order| && order[i] == c;
    }
  }

  /** Marking more candidates seen never widens the gap, and marking a new
      one narrows it. */
  lemma GapShrinks<T>(cands: set<T>, seen: set<T>, seen': set<T>)
    requires seen <= seen'
    requires seen' - seen <= cands
    ensures |cands - seen'| <= |cands - seen|
    ensures seen' != seen ==> |cands - seen'| < |cands - seen|
  {
    var gap := cands - seen;
    var gap' := cands - seen';
    assert gap == gap' + (seen' - seen);
    assert gap' !! (seen' - seen);
  }

  /** The diagonal steps `gen_navmesh` appends to pos's list, among the
      first n checks: the diagonal cell is in the graph and one of the two
      level steps around its corner is already in pos's list. */
  function DiagonalsFor(m: map<Cell, seq<Cell>>, pos: Cell, n: nat): (d: seq<Cell>)
    requires pos in m && n <= |DIAGONAL_CHECKS|
    ensures |d| <= n
  {
    if n == 0 then []
    else
      var check := DIAGONAL_CHECKS[n - 1];
      var diag := Add(pos, check.diagonal);
      DiagonalsFor(m, pos, n - 1)
        + (if diag in m && CornerListed(m[pos], pos, check.corners) then [diag] else [])
  }

  /** `any(...)` over the corner offsets of one check. */
  predicate CornerListed(list: seq<Cell>, pos: Cell, corners: seq<Cell>) {
    exists i :: 0 <= i < |corners| && Add(pos, corners[i]) in list
  }

  /** A diagonal is appended exactly when its cell is a key of the graph
      and a corner step was already listed. */
  lemma {:induction false} DiagonalsForMembers(m: map<Cell, seq<Cell>>, pos: Cell, n: nat)
    requires pos in m && n <= |DIAGONAL_CHECKS|
    ensures forall d :: d in DiagonalsFor(m, pos, n) <==>
      exists k :: 0 <= k < n && d == Add(pos, DIAGONAL_CHECKS[k].diagonal) && d in m
        && CornerListed(m[pos], pos, DIAGONAL_CHECKS[k].corners)
  {
    if n > 0 {
      DiagonalsForMembers(m, pos, n - 1);
    }
  }

  /** The diagonal pass over the whole graph, every list extended with its
      diagonals. The pass reads, for each cell, only the key set and the
      cell's own list, so the order it takes the cells in does not matter. */
  ghost function DiagonalPass(m: map<Cell, seq<Cell>>): map<Cell, seq<Cell>>
  {
    map p | p in m :: m[p] + DiagonalsFor(m, p, 4)
  }

  /** The pass keeps the keys and only appends: every list keeps its
      entries in front and gains at most one diagonal per check. */
  lemma DiagonalPassExtends(m: map<Cell, seq<Cell>>, p: Cell)
    requires p in m
    ensures DiagonalPass(m).Keys == m.Keys
    ensures m[p] <= DiagonalPass(m)[p]
    ensures |DiagonalPass(m)[p]| <= |m[p]| + |DIAGONAL_CHECKS|
  {
  }

  /** The diagonals of a cell depend only on the keys and that cell's list. */
  lemma {:induction false} DiagonalsLocal(m: map<Cell, seq<Cell>>, m': map<Cell, seq<Cell>>, pos: Cell, n: nat)
    requires pos in m && m.Keys == m'.Keys && m'[pos] == m[pos] && n <= |DIAGONAL_CHECKS|
    ensures DiagonalsFor(m', pos, n) == DiagonalsFor(m, pos, n)
  {
    if n > 0 {
      DiagonalsLocal(m, m', pos, n - 1);
    }
  }

  /** The inner loop of the diagonal pass for one cell. */
  method ValidDiagonals(m: map<Cell, seq<Cell>>, pos: Cell) returns (valid: seq<Cell>)
    requires pos in m
    ensures valid == DiagonalsFor(m, pos, 4)
  {
    valid := [];
    for k := 0 to |DIAGONAL_CHECKS|
      invariant valid == DiagonalsFor(m, pos, k)
    {
      var check := DIAGONAL_CHECKS[k];
      var worldDiag := Add(pos, check.diagonal);
      if worldDiag in m {
        if exists i :: 0 <= i < |check.corners| && Add(pos, check.corners[i]) in m[pos] {
          valid := valid + [worldDiag];
        }
      }
    }
  }

  /** The diagonal pass of `gen_navmesh`, over every key of the graph. */
  method AddDiagonals(w: World)
    modifies w`neighborMap
    ensures w.neighborMap == DiagonalPass(old(w.neighborMap))
  {
    ghost var m0 := w.neighborMap;
    var todo := w.neighborMap.Keys;
    while todo != {}
      invariant todo <= m0.Keys && w.neighborMap.Keys == m0.Keys
      invariant forall p :: p in m0 && p !in todo ==> w.neighborMap[p] == DiagonalPass(m0)[p]
      invariant forall p :: p in todo ==> w.neighborMap[p] == m0[p]
      decreases |todo|
    {
      var pos :| pos in todo;
      var validDiagonals := ValidDiagonals(w.neighborMap, pos);
      DiagonalsLocal(m0, w.neighborMap, pos, 4);
      w.neighborMap := w.neighborMap[pos := w.neighborMap[pos] + validDiagonals];
      todo := todo - {pos};
    }
  }

  /** `gen_navmesh(xz_origin, scan_range)`: scan for a seed; when one is
      found, flood the graph from it; then add the diagonals of every cell
      of the graph. The graph is never cleared. */
  method GenNavmesh(w: World, xzOrigin: Cell, scanRange: int)
    returns (ghost order: seq<Cell>, ghost parent: seq<nat>, ghost flooded: map<Cell, seq<Cell>>)
    requires w.Structure()
    modifies w`neighborMap
    ensures FloodResult(w, ScanFrom(w, xzOrigin, 0, scanRange), old(w.neighborMap), order, parent, flooded)
    ensures w.neighborMap == DiagonalPass(flooded)
  {
    var origin := FindSeed(w, xzOrigin, scanRange);
    ScanValid(w, xzOrigin, 0, scanRange);
    order, parent := [], [];
    if origin.Some? {
      order, parent := Flood(w, origin.value);
    }
    flooded := w.neighborMap;
    AddDiagonals(w);
  }

  /** The cell is off both of pos's axes in the horizontal plane. */
  predicate OffAxis(pos: Cell, d: Cell) {
    d.x != pos.x && d.z != pos.z
  }

  /** Every diagonal offset moves along both x and z; every corner offset
      along at most one of them. */
  lemma OffsetShapes()
    ensures forall k :: 0 <= k < |DIAGONAL_CHECKS| ==>
      DIAGONAL_CHECKS[k].diagonal.x != 0 && DIAGONAL_CHECKS[k].diagonal.z != 0
    ensures forall k, i :: 0 <= k < |DIAGONAL_CHECKS| && 0 <= i < |DIAGONAL_CHECKS[k].corners| ==>
      DIAGONAL_CHECKS[k].corners[i].x == 0 || DIAGONAL_CHECKS[k].corners[i].z == 0
  {
  }

  /** Every appended diagonal is off pos's axes. */
  lemma {:induction false} DiagonalsOffAxis(m: map<Cell, seq<Cell>>, pos: Cell, n: nat)
    requires pos in m && n <= |DIAGONAL_CHECKS|
    ensures forall d :: d in DiagonalsFor(m, pos, n) ==> OffAxis(pos, d)
  {
    if n > 0 {
      DiagonalsOffAxis(m, pos, n - 1);
      OffsetShapes();
    }
  }

  /** The diagonal pass does not change which diagonals qualify: the keys
      stay, and the appended diagonals are never corner steps. */
  lemma DiagonalsStable(m: map<Cell, seq<Cell>>, pos: Cell)
    requires pos in m
    ensures DiagonalsFor(DiagonalPass(m), pos, 4) == DiagonalsFor(m, pos, 4)
  {
    var m' := DiagonalPass(m);
    DiagonalsOffAxis(m, pos, 4);
    assert m'[pos] == m[pos] + DiagonalsFor(m, pos, 4);
    DiagonalsCornersAgree(m, m', pos, 4);
  }

  /** Two graphs with the same keys whose lists at pos agree on every cell
      on pos's axes give pos the same diagonals. */
  lemma {:induction false} DiagonalsCornersAgree(m: map<Cell, seq<Cell>>, m': map<Cell, seq<Cell>>, pos: Cell, n: nat)
    requires pos in m && m.Keys == m'.Keys && n <= |DIAGONAL_CHECKS|
    requires forall c :: !OffAxis(pos, c) ==> (c in m'[pos] <==> c in m[pos])
    ensures DiagonalsFor(m', pos, n) == DiagonalsFor(m, pos, n)
  {
    if n > 0 {
      DiagonalsCornersAgree(m, m', pos, n - 1);
      OffsetShapes();
      var check := DIAGONAL_CHECKS[n - 1];
      assert CornerListed(m'[pos], pos, check.corners) == CornerListed(m[pos], pos, check.corners) by {
        if CornerListed(m[pos], pos, check.corners) {
          var i :| 0 <= i < |check.corners| && Add(pos, check.corners[i]) in m[pos];
          assert !OffAxis(pos, Add(pos, check.corners[i]));
        }
        if CornerListed(m'[pos], pos, check.corners) {
          var i :| 0 <= i < |check.corners| && Add(pos, check.corners[i]) in m'[pos];
          assert !OffAxis(pos, Add(pos, check.corners[i]));
        }
      }
    }
  }

  /** Running the diagonal pass over its own output appends every cell's
      diagonals a second time. */
  lemma RepeatedPassDuplicates(m: map<Cell, seq<Cell>>, pos: Cell)
    requires pos in m
    ensures DiagonalPass(DiagonalPass(m))[pos] == m[pos] + DiagonalsFor(m, pos, 4) + DiagonalsFor(m, pos, 4)
  {
    DiagonalsStable(m, pos);
  }

  /** A cell the flood reaches has its list reset to its steps first, so
      after `gen_navmesh` it holds its steps and one set of diagonals,
      whatever the graph held for it before. */
  lemma ReFloodedOnce(w: World, seed: Option<Cell>, graph0: map<Cell, seq<Cell>>,
                      order: seq<Cell>, parent: seq<nat>, flooded: map<Cell, seq<Cell>>, c: Cell)
    requires FloodResult(w, seed, graph0, order, parent, flooded) && c in order
    ensures c in DiagonalPass(flooded)
    ensures DiagonalPass(flooded)[c] == Steps(w, c) + DiagonalsFor(flooded, c, 4)
  {
  }

  /** A second `gen_navmesh` over the graph a first one left
      (`DiagonalPass(flooded1)`): a cell the second flood does not reach keeps
      its list, first diagonals included, and gets a second set of diagonals,
      taken over the new key set. */
  lemma UnreachedGetsDiagonalsAgain(w: World, seed: Option<Cell>, flooded1: map<Cell, seq<Cell>>,
                                    order: seq<Cell>, parent: seq<nat>, flooded: map<Cell, seq<Cell>>, c: Cell)
    requires FloodResult(w, seed, DiagonalPass(flooded1), order, parent, flooded)
    requires c in flooded1 && c !in order
    ensures DiagonalPass(flooded)[c] ==
      flooded1[c] + DiagonalsFor(flooded1, c, 4) + DiagonalsFor(flooded, c, 4)
  {
  }

  /** Without a seed the flood leaves the graph as it was. */
  lemma NoFloodKeepsGraph(w: World, graph0: map<Cell, seq<Cell>>,
                          order: seq<Cell>, parent: seq<nat>, flooded: map<Cell, seq<Cell>>)
    requires FloodResult(w, None, graph0, order, parent, flooded)
    ensures flooded.Keys == graph0.Keys
    ensures forall c :: c in graph0 ==> flooded[c] == graph0[c]
  {
    assert order == [];
  }

  /** When the second call finds no seed, the graph is the first call's and
      the diagonals of every cell are appended twice over the same keys. */
  lemma NoSeedRepeatsDiagonals(w: World, flooded1: map<Cell, seq<Cell>>,
                               order: seq<Cell>, parent: seq<nat>, flooded: map<Cell, seq<Cell>>, c: Cell)
    requires FloodResult(w, None, DiagonalPass(flooded1), order, parent, flooded)
    requires c in flooded1
    ensures DiagonalPass(flooded)[c] ==
      flooded1[c] + DiagonalsFor(flooded1, c, 4) + DiagonalsFor(flooded1, c, 4)
  {
    var g0 := DiagonalPass(flooded1);
    NoFloodKeepsGraph(w, g0, order, parent, flooded);
    DiagonalsLocal(g0, flooded, c, 4);
    DiagonalsStable(flooded1, c);
  }
}
