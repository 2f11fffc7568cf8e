/**
  The mutable simulator and its router (functional_layer/custom_env/cooperative_grid/grid_env.py).
  `route` is the same breadth-first loop as the planners', over cells; it remembers a predecessor per
  cell instead of a path per node, and rebuilds the path backwards from the target it met.
*/
module GridBackend {
  import opened Common
  import opened Search
  import opened Grid

  const MOVES: seq<Action> := [Left, Right, Up, Down]

  function RouteProblem(l: Layout, g: GridState, agent: Agent, targets: seq<Cell>): Problem<Cell, Action>
  {
    Problem(g.Of(agent), MOVES, (c: Cell) => c in targets,
      (c: Cell, m: Action) => if IsMove(m) && Free(l, g, Target(c, m), agent) then Successor(Target(c, m))
        else Inapplicable)
  }

  /** The answer `route` must give: the shortest route, least in the order of the moves, or none at all. */
  ghost predicate IsRoute(l: Layout, g: GridState, agent: Agent, targets: seq<Cell>, r: Option<seq<Action>>)
  {
    match r
    case Some(path) => LeastPlan(RouteProblem(l, g, agent, targets), path)
    case None => forall path :: !IsPlan(RouteProblem(l, g, agent, targets), path)
  }

  lemma RouteIsUnique(l: Layout, g: GridState, agent: Agent, targets: seq<Cell>, r: Option<seq<Action>>,
    q: Option<seq<Action>>)
    requires IsRoute(l, g, agent, targets, r) && IsRoute(l, g, agent, targets, q)
    ensures r == q
  {
    if r.Some? && q.Some? { LeastPlanUnique(RouteProblem(l, g, agent, targets), r.value, q.value); }
  }

  function CellKey(c: Cell): Cell
  {
    c
  }

  // ---------------------------------------------------------------------------------------------
  // The predecessor map
  // ---------------------------------------------------------------------------------------------

  type Predecessors = map<Cell, (Cell, Action)>

  /** Node `k` was reached from node `i` by the move that the map remembers for its cell. */
  ghost predicate IsParent(order: seq<Node<Cell, Action>>, prev: Predecessors, k: nat, i: nat)
    requires k < |order|
  {
    && i < k && order[k].state in prev && order[i].state == prev[order[k].state].0
    && order[k].path == order[i].path + [prev[order[k].state].1]
  }

  ghost predicate HasParent(order: seq<Node<Cell, Action>>, prev: Predecessors, k: nat)
    requires k < |order|
  {
    exists i: nat :: IsParent(order, prev, k, i)
  }

  ghost predicate PrevMatches(order: seq<Node<Cell, Action>>, prev: Predecessors)
  {
    forall k :: 0 < k < |order| ==> HasParent(order, prev, k)
  }

  lemma NoPredecessors(order: seq<Node<Cell, Action>>)
    requires |order| == 1
    ensures PrevMatches(order, map[])
  {
  }

  lemma PrevAppend(order: seq<Node<Cell, Action>>, prev: Predecessors, h: nat, node: Node<Cell, Action>, m: Action)
    requires PrevMatches(order, prev) && h < |order| && node.path == order[h].path + [m]
    requires node.state !in Keys(CellKey, order)
    ensures PrevMatches(order + [node], prev[node.state := (order[h].state, m)])
  {
    var longer, extended := order + [node], prev[node.state := (order[h].state, m)];
    forall k | 0 < k < |longer|
      ensures HasParent(longer, extended, k)
    {
      if k < |order| {
        assert CellKey(order[k].state) in Keys(CellKey, order);
        assert HasParent(order, prev, k);
        var i: nat :| IsParent(order, prev, k, i);
        assert IsParent(longer, extended, k, i);
      } else {
        assert IsParent(longer, extended, k, h);
      }
    }
  }

  function Reversed<T>(s: seq<T>): seq<T>
    decreases |s|
  {
    if s == [] then [] else [Last(s)] + Reversed(Init(s))
  }

  lemma OnlyTheStart(order: seq<Node<Cell, Action>>, k: nat)
    requires k < |order| && KeysDistinct(CellKey, order) && order[k].state == order[0].state
    ensures k == 0
  {
    if k > 0 {
      assert false;
    }
  }

  /** Follow the predecessors from the last node back to the start. */
  method Unwind(start: Cell, from: Cell, prev: Predecessors, ghost order: seq<Node<Cell, Action>>)
    returns (path: seq<Action>)
    requires order != [] && order[0] == Node(start, []) && KeysDistinct(CellKey, order) && PrevMatches(order, prev)
    requires Last(order).state == from
    ensures path == Last(order).path
  {
    var backwards: seq<Action> := [];
    var cur := from;
    ghost var k := |order| - 1;
    while cur != start
      invariant 0 <= k < |order| && order[k].state == cur
      invariant order[k].path + Reversed(backwards) == Last(order).path
      decreases k
    {
      assert HasParent(order, prev, k);
      ghost var i: nat :| IsParent(order, prev, k, i);
      var m;
      ghost var rest := Reversed(backwards);
      cur, m := prev[cur].0, prev[cur].1;
      backwards := backwards + [m];
      assert Init(backwards + []) == Init(backwards);
      assert Reversed(backwards) == [m] + rest;
      assert order[i].path + ([m] + rest) == order[k].path + rest;
      k := i;
    }
    OnlyTheStart(order, k);
    path := Reversed(backwards);
  }

  // ---------------------------------------------------------------------------------------------
  // The simulator
  // ---------------------------------------------------------------------------------------------

  class CooperativeGridEnv {
    const layout: Layout
    const jammedAtStart: bool
    const maxSteps: int
    var agents: set<Agent>
    var pos: map<Agent, Cell>
    var doorOpen: bool
    var doorJammed: bool
    var stepCount: nat
    var terminated: bool
    var truncated: bool

    /** Positions exist once the backend was reset. */
    ghost predicate Valid()
      reads this
    {
      && ValidLayout(layout) && AgentA in pos && AgentB in pos && Safe(layout, Value())
      && agents == (if Value().Over() then {} else {AgentA, AgentB})
    }

    function Value(): GridState
      requires AgentA in pos && AgentB in pos
      reads this
    {
      GridState(pos[AgentA], pos[AgentB], doorOpen, doorJammed, stepCount, terminated, truncated)
    }

    constructor (layout: Layout, jammedAtStart: bool, maxSteps: int)
      requires ValidLayout(layout)
      ensures this.layout == layout && this.jammedAtStart == jammedAtStart && this.maxSteps == maxSteps
      ensures agents == {} && pos == map[]
    {
      this.layout, this.jammedAtStart, this.maxSteps := layout, jammedAtStart, maxSteps;
      agents, pos, doorOpen, doorJammed := {}, map[], false, false;
      stepCount, terminated, truncated := 0, false, false;
    }

    method Reset()
      requires ValidLayout(layout)
      modifies this
      ensures Valid() && Value() == Started(layout, jammedAtStart)
    {
      agents, pos := {AgentA, AgentB}, map[AgentA := layout.startA, AgentB := layout.startB];
      doorOpen, doorJammed := false, jammedAtStart;
      stepCount, terminated, truncated := 0, false, false;
    }

    method MoveAgent(agent: Agent, action: Action)
      requires AgentA in pos && AgentB in pos
      modifies this`pos
      ensures AgentA in pos && AgentB in pos
      ensures Value() == Moved(layout, old(Value()), agent, action)
    {
      if IsMove(action) {
        var target := Target(pos[agent], action);
        if Free(layout, Value(), target, agent) {
          pos := pos[agent := target];
        }
      }
    }

    method ShakeDoor(agent: Agent)
      requires AgentA in pos && AgentB in pos
      modifies this`doorJammed
      ensures Value() == Shaken(layout, old(Value()), agent, Shake)
    {
      if IsHandle(layout, pos[agent]) && !doorOpen {
        doorJammed := false;
      }
    }

    method PullDoor(j: Joint)
      requires AgentA in pos && AgentB in pos
      modifies this`doorOpen
      ensures Value() == Pulled(layout, old(Value()), j)
    {
      if j.a == Pull && j.b == Pull && IsHandle(layout, pos[AgentA]) && IsHandle(layout, pos[AgentB])
         && !doorOpen && !doorJammed {
        doorOpen := true;
      }
    }

    method Judge()
      requires AgentA in pos && AgentB in pos
      modifies this`terminated, this`truncated
      ensures Value() == Judged(layout, old(Value()), maxSteps)
    {
      terminated := pos[AgentA] in layout.goals && pos[AgentB] in layout.goals;
      truncated := !terminated && stepCount >= maxSteps;
    }

    /** The physical part of a step: movement in agent order, shakes, pull, verdict. */
    method Advance(j: Joint)
      requires AgentA in pos && AgentB in pos
      modifies this`pos, this`doorOpen, this`doorJammed, this`stepCount, this`terminated, this`truncated
      ensures AgentA in pos && AgentB in pos
      ensures Value() == Stepped(layout, maxSteps, old(Value()), j)
    {
      hide Moved, Pulled, Judged;
      stepCount := stepCount + 1;
      MoveAgent(AgentA, j.a);
      MoveAgent(AgentB, j.b);
      if j.a == Shake { ShakeDoor(AgentA); }
      if j.b == Shake { ShakeDoor(AgentB); }
      PullDoor(j);
      Judge();
    }

    /** `false` where the source raises: the episode has ended and nothing changes. */
    method Step(j: Joint) returns (ok: bool)
      requires Valid()
      modifies this
      ensures Valid() && ok == !old(Value()).Over()
      ensures Value() == if ok then Stepped(layout, maxSteps, old(Value()), j) else old(Value())
    {
      hide Stepped, Safe, ValidLayout;
      if agents == {} {
        assert Value().Over();
        return false;
      }
      StepIsSafe(layout, maxSteps, Value(), j);
      Advance(j);
      if terminated || truncated {
        agents := {};
      }
      return true;
    }

    /** The shortest way to one of the targets through the cells the agent can traverse now. */
    method Route(agent: Agent, targets: seq<Cell>) returns (r: Option<seq<Action>>)
      requires Valid()
      ensures IsRoute(layout, Value(), agent, targets, r)
    {
      hide Inv, ValidLayout, Free, PrevMatches, KeysDistinct;
      ghost var p := RouteProblem(layout, Value(), agent, targets);
      var start := pos[agent];
      if start in targets {
        assert IsPlan(p, []);
        return Some([]);
      }
      var queue, seen := [start], {start};
      var prev: Predecessors := map[];
      ghost var order, h := [Node(start, [])], 0;
      InvStart(p, CellKey);
      NoPredecessors(order);
      while queue != []
        invariant 0 <= h <= |order| && Inv(p, CellKey, order, h, 0)
        invariant queue == CellsFrom(order, h) && seen == Keys(CellKey, order) && PrevMatches(order, prev)
        invariant AllWalkable(layout, order)
        decreases |AllCells(layout)| - h
      {
        InvBasics(p, order, h, 0);
        VisitedFit(layout, p, order, h);
        var cell := queue[0];
        queue := queue[1..];
        r, queue, seen, prev, order := ExpandCell(agent, targets, start, cell, queue, seen, prev, order, h);
        if r.Some? {
          return r;
        }
        h := h + 1;
      }
      ExhaustedHasNoPlan(p, CellKey, order);
      return None;
    }

    /** Try the four moves from one cell; meeting a target ends the search. */
    method ExpandCell(agent: Agent, targets: seq<Cell>, start: Cell, cell: Cell, waiting: seq<Cell>, before: set<Cell>,
      known: Predecessors, ghost past: seq<Node<Cell, Action>>, ghost h: nat) returns (r: Option<seq<Action>>,
      queue: seq<Cell>, seen: set<Cell>, prev: Predecessors, ghost order: seq<Node<Cell, Action>>)
      requires Valid() && start == pos[agent]
      requires var p := RouteProblem(layout, Value(), agent, targets);
               Inv(p, CellKey, past, h, 0) && h < |past| && past[h].state == cell
      requires waiting == CellsFrom(past, h + 1) && before == Keys(CellKey, past) && PrevMatches(past, known)
      requires AllWalkable(layout, past)
      ensures r.Some? ==> LeastPlan(RouteProblem(layout, Value(), agent, targets), r.value)
      ensures r.None? ==> h < |order| && Inv(RouteProblem(layout, Value(), agent, targets), CellKey, order, h + 1, 0)
      ensures r.None? ==> queue == CellsFrom(order, h + 1) && seen == Keys(CellKey, order) && PrevMatches(order, prev)
      ensures r.None? ==> AllWalkable(layout, order)
    {
      hide Inv, ValidLayout, Safe, Free, PrevMatches, KeysDistinct;
      ghost var p := RouteProblem(layout, Value(), agent, targets);
      queue, seen, prev, order := waiting, before, known, past;
      for j := 0 to |MOVES|
        invariant h < |order| && Inv(p, CellKey, order, h, j) && order[h].state == cell
        invariant queue == CellsFrom(order, h + 1) && seen == Keys(CellKey, order) && PrevMatches(order, prev)
        invariant AllWalkable(layout, order)
      {
        var m := MOVES[j];
        var nxt := Target(cell, m);
        if nxt in seen || !Free(layout, Value(), nxt, agent) {
          InvSkip(p, CellKey, order, h, j);
        } else {
          ghost var node := Node(nxt, order[h].path + [m]);
          FreshKey(order, nxt);
          FreeIsWalkable(layout, Value(), nxt, agent);
          PrevAppend(order, prev, h, node, m);
          KeysAppend(CellKey, order, node);
          seen := seen + {nxt};
          prev := prev[nxt := (cell, m)];
          if nxt in targets {
            FoundIsLeast(p, CellKey, order, h, j);
            InvBasics(p, order, h, j);
            DistinctAppend(order, node);
            var path := Unwind(start, nxt, prev, order + [node]);
            return Some(path), queue, seen, prev, order;
          }
          InvEnqueue(p, CellKey, order, h, j, node);
          queue := queue + [nxt];
          order := order + [node];
        }
      }
      InvNextHead(p, CellKey, order, h);
      r := None;
    }
  }

  lemma FreeIsWalkable(l: Layout, g: GridState, c: Cell, mover: Agent)
    requires Free(l, g, c, mover)
    ensures Walkable(l, c)
  {
  }

  lemma InvBasics(p: Problem<Cell, Action>, order: seq<Node<Cell, Action>>, h: nat, j: nat)
    requires Inv(p, CellKey, order, h, j)
    ensures order != [] && order[0] == Node(p.start, []) && KeysDistinct(CellKey, order)
  {
  }

  ghost function CellsFrom(order: seq<Node<Cell, Action>>, h: nat): seq<Cell>
    requires h <= |order|
  {
    seq(|order| - h, i requires 0 <= i < |order| - h => order[h + i].state)
  }

  ghost predicate AllWalkable(l: Layout, order: seq<Node<Cell, Action>>)
  {
    forall i :: 0 <= i < |order| ==> Walkable(l, order[i].state)
  }

  lemma FreshKey(order: seq<Node<Cell, Action>>, c: Cell)
    ensures c in Keys(CellKey, order) <==> exists i :: 0 <= i < |order| && order[i].state == c
  {
    if i :| 0 <= i < |order| && order[i].state == c {
      assert CellKey(order[i].state) in Keys(CellKey, order);
    }
  }

  lemma DistinctAppend(order: seq<Node<Cell, Action>>, node: Node<Cell, Action>)
    requires KeysDistinct(CellKey, order) && node.state !in Keys(CellKey, order)
    ensures KeysDistinct(CellKey, order + [node])
  {
    FreshKey(order, node.state);
  }

  /** The cells of the map, which bound how long the search can run. */
  ghost function AllCells(l: Layout): set<Cell>
  {
    set x, y | 0 <= y < |l.rows| && 0 <= x < |l.rows[y]| :: (x, y)
  }

  lemma VisitedFit(l: Layout, p: Problem<Cell, Action>, order: seq<Node<Cell, Action>>, h: nat)
    requires KeysDistinct(CellKey, order) && AllWalkable(l, order)
    ensures |order| <= |AllCells(l)|
  {
    var cells := seq(|order|, i requires 0 <= i < |order| => order[i].state);
    forall i, k | 0 <= i < k < |cells|
      ensures cells[i] != cells[k]
    {
      assert CellKey(order[i].state) != CellKey(order[k].state);
    }
    forall i | 0 <= i < |cells|
      ensures cells[i] in AllCells(l)
    {
      var c := order[i].state;
      assert c == (c.0, c.1);
    }
    DistinctBound(cells, AllCells(l));
  }

  // ---------------------------------------------------------------------------------------------
  // Replaying a route
  // ---------------------------------------------------------------------------------------------

  /** The agent walks and the other one does nothing. */
  function Solos(agent: Agent, path: seq<Action>): seq<Joint>
  {
    seq(|path|, i requires 0 <= i < |path| => Solo(agent, path[i]))
  }

  /** No step of the walk before its last one ends the episode. */
  ghost predicate Unended(l: Layout, maxSteps: int, g: GridState, agent: Agent, path: seq<Action>)
  {
    forall i :: 0 <= i < |path| ==> !Play(l, maxSteps, g, Solos(agent, path[..i])).Over()
  }

  lemma SolosInit(agent: Agent, path: seq<Action>)
    requires path != []
    ensures Init(Solos(agent, path)) == Solos(agent, Init(path)) && Last(Solos(agent, path)) == Solo(agent, Last(path))
  {
  }

  /** One free move of a walk: the agent arrives, and nothing else but the clock and the verdict changes. */
  lemma FreeMoveArrives(l: Layout, maxSteps: int, g: GridState, agent: Agent, m: Action)
    requires IsMove(m) && Free(l, g, Target(g.Of(agent), m), agent)
    ensures var h := Stepped(l, maxSteps, g, Solo(agent, m));
            && h.Of(agent) == Target(g.Of(agent), m) && h.Of(Other(agent)) == g.Of(Other(agent))
            && h.doorOpen == g.doorOpen && h.jammed == g.jammed && h.steps == g.steps + 1
  {
  }

  /** Replaying a path through `step` visits exactly the cells it reaches: no move is ever blocked. */
  lemma {:induction false} WalkFollowsPath(l: Layout, maxSteps: int, g: GridState, agent: Agent, targets: seq<Cell>,
    path: seq<Action>)
    requires Reached(RouteProblem(l, g, agent, targets), path).Some? && Unended(l, maxSteps, g, agent, path)
    ensures var h := Play(l, maxSteps, g, Solos(agent, path));
            && h.Of(agent) == Reached(RouteProblem(l, g, agent, targets), path).value
            && h.Of(Other(agent)) == g.Of(Other(agent))
            && h.doorOpen == g.doorOpen && h.jammed == g.jammed && h.steps == g.steps + |path|
    decreases |path|
  {
    if path != [] {
      hide Stepped, Free;
      var before := Init(path);
      assert forall i :: 0 <= i < |before| ==> before[..i] == path[..i];
      WalkFollowsPath(l, maxSteps, g, agent, targets, before);
      SolosInit(agent, path);
      assert path[..|path| - 1] == before;
      var mid := Play(l, maxSteps, g, Solos(agent, before));
      SameObstacles(l, g, mid, agent, Target(mid.Of(agent), Last(path)));
      FreeMoveArrives(l, maxSteps, mid, agent, Last(path));
    }
  }

  /** What is free for the walker depends on the door and on the other agent only. */
  lemma SameObstacles(l: Layout, g: GridState, h: GridState, agent: Agent, c: Cell)
    requires g.doorOpen == h.doorOpen && g.Of(Other(agent)) == h.Of(Other(agent))
    ensures Free(l, g, c, agent) <==> Free(l, h, c, agent)
  {
  }

  /** So a route ends on one of its targets, provided the episode does not end on the way. */
  lemma RouteEndsOnTarget(l: Layout, maxSteps: int, g: GridState, agent: Agent, targets: seq<Cell>, path: seq<Action>)
    requires IsRoute(l, g, agent, targets, Some(path)) && Unended(l, maxSteps, g, agent, path)
    ensures Play(l, maxSteps, g, Solos(agent, path)).Of(agent) in targets
    ensures Play(l, maxSteps, g, Solos(agent, path)).steps == g.steps + |path|
  {
    WalkFollowsPath(l, maxSteps, g, agent, targets, path);
  }

  /** A walk falls short of its path exactly when the episode ends before the last step. */
  lemma {:induction false} WalkFallsShortIff(l: Layout, maxSteps: int, g: GridState, agent: Agent, path: seq<Action>)
    ensures var h := Play(l, maxSteps, g, Solos(agent, path));
            && g.steps <= h.steps <= g.steps + |path|
            && (h.steps == g.steps + |path| <==> Unended(l, maxSteps, g, agent, path))
            && (h.steps < g.steps + |path| ==> h.Over())
    decreases |path|
  {
    if path != [] {
      hide Stepped;
      var before := Init(path);
      assert forall i :: 0 <= i < |before| ==> before[..i] == path[..i];
      assert path[..|path| - 1] == before;
      WalkFallsShortIff(l, maxSteps, g, agent, before);
      SolosInit(agent, path);
      OneTick(l, maxSteps, Play(l, maxSteps, g, Solos(agent, before)), Solo(agent, Last(path)));
    }
  }

  lemma OneTick(l: Layout, maxSteps: int, g: GridState, j: Joint)
    ensures Stepped(l, maxSteps, g, j).steps == g.steps + 1
  {
  }

  // ---------------------------------------------------------------------------------------------
  // Routes on a given map
  // ---------------------------------------------------------------------------------------------

  /** Where a sequence of moves leads from a cell, if every move is free. */
  function Trail(l: Layout, g: GridState, agent: Agent, c: Cell, path: seq<Action>): Option<Cell>
    decreases |path|
  {
    if path == [] then Some(c)
    else if IsMove(path[0]) && Free(l, g, Target(c, path[0]), agent)
      then Trail(l, g, agent, Target(c, path[0]), path[1..])
    else None
  }

  lemma {:induction false} TrailIsReached(l: Layout, g: GridState, agent: Agent, targets: seq<Cell>, c: Cell,
    path: seq<Action>)
    requires forall i :: 0 <= i < |path| ==> IsMove(path[i])
    ensures Reached(RouteProblem(l, g, agent, targets).(start := c), path) == Trail(l, g, agent, c, path)
    decreases |path|
  {
    if path != [] {
      hide Free;
      var p := RouteProblem(l, g, agent, targets).(start := c);
      assert path == [path[0]] + path[1..];
      MovesAreListed(path[0]);
      ReachedOne(p, path[0]);
      ReachedCons(p, path[0], path[1..]);
      if Free(l, g, Target(c, path[0]), agent) {
        TrailIsReached(l, g, agent, targets, Target(c, path[0]), path[1..]);
      }
    }
  }

  lemma MovesAreListed(m: Action)
    requires IsMove(m)
    ensures m in MOVES
  {
    assert MOVES[0] == Left && MOVES[1] == Right && MOVES[2] == Up && MOVES[3] == Down;
  }

  /** A free trail to a target proves that the router finds a route, and one no longer than the trail. */
  lemma RouteExists(l: Layout, g: GridState, agent: Agent, targets: seq<Cell>, trail: seq<Action>)
    returns (path: seq<Action>)
    requires forall i :: 0 <= i < |trail| ==> IsMove(trail[i])
    requires Trail(l, g, agent, g.Of(agent), trail).Some? && Trail(l, g, agent, g.Of(agent), trail).value in targets
    ensures IsRoute(l, g, agent, targets, Some(path)) && |path| <= |trail|
  {
    var p := RouteProblem(l, g, agent, targets);
    TrailIsReached(l, g, agent, targets, g.Of(agent), trail);
    assert p.(start := g.Of(agent)) == p;
    assert IsPlan(p, trail);
    path := LeastPlanExists(p, trail);
    assert Leq(p.calls, path, trail);
  }
}
