/**
  The CooperativeGrid backend (functional_layer/custom_env/cooperative_grid/grid_env.py): two agents
  that step together, one heavy door that may be jammed, one goal region. Facing, captions, events and
  observations are left out; positions, door, jam, step count and the terminal flags are kept.
*/
module Grid {
  import opened Common

  datatype Agent = AgentA | AgentB

  datatype Action = Noop | Left | Right | Up | Down | Pull | Shake

  /** One action per agent; an agent the caller does not name does nothing. */
  datatype Joint = Joint(a: Action, b: Action)
  {
    function Of(agent: Agent): Action {
      if agent == AgentA then a else b
    }
  }

  function Solo(agent: Agent, action: Action): Joint
  {
    if agent == AgentA then Joint(action, Noop) else Joint(Noop, action)
  }

  function Other(agent: Agent): Agent
  {
    if agent == AgentA then AgentB else AgentA
  }

  // ---------------------------------------------------------------------------------------------
  // The map
  // ---------------------------------------------------------------------------------------------

  datatype Layout = Layout(rows: seq<string>, door: Cell, goals: seq<Cell>, startA: Cell, startB: Cell)

  predicate InBounds(l: Layout, c: Cell)
  {
    0 <= c.1 < |l.rows| && 0 <= c.0 < |l.rows[c.1]|
  }

  predicate IsWall(l: Layout, c: Cell)
  {
    InBounds(l, c) && l.rows[c.1][c.0] == '#'
  }

  /** A cell of the map that no wall occupies. */
  predicate Walkable(l: Layout, c: Cell)
  {
    InBounds(l, c) && !IsWall(l, c)
  }

  function HandleLeft(l: Layout): Cell
  {
    (l.door.0 - 1, l.door.1 - 1)
  }

  function HandleRight(l: Layout): Cell
  {
    (l.door.0 + 1, l.door.1 - 1)
  }

  predicate IsHandle(l: Layout, c: Cell)
  {
    c == HandleLeft(l) || c == HandleRight(l)
  }

  /** What reading a map gives: the marked cells, and two different starts away from the door. */
  predicate ValidLayout(l: Layout)
  {
    && (forall i :: 0 <= i < |l.rows| ==> |l.rows[i]| == |l.rows[0]|)
    && Walkable(l, l.startA) && Walkable(l, l.startB) && l.startA != l.startB
    && l.door != l.startA && l.door != l.startB
    && (forall c :: c in l.goals ==> Walkable(l, c) && !IsHandle(l, c))
  }

  const LAYOUT := Layout(
    ["#########",
     "#A.....B#",
     "####D####",
     "#.......#",
     "#..GGG..#",
     "#########"], (4, 2), [(3, 4), (4, 4), (5, 4)], (1, 1), (7, 1))

  function Tile(l: Layout, c: Cell): char
    requires InBounds(l, c)
  {
    l.rows[c.1][c.0]
  }

  /** The frozen map is read as its rows show it. */
  lemma FrozenLayoutIsValid()
    ensures ValidLayout(LAYOUT)
    ensures forall c :: c in LAYOUT.goals <==> InBounds(LAYOUT, c) && Tile(LAYOUT, c) == 'G'
    ensures forall c :: c == LAYOUT.door <==> InBounds(LAYOUT, c) && Tile(LAYOUT, c) == 'D'
    ensures forall c :: c == LAYOUT.startA <==> InBounds(LAYOUT, c) && Tile(LAYOUT, c) == 'A'
    ensures forall c :: c == LAYOUT.startB <==> InBounds(LAYOUT, c) && Tile(LAYOUT, c) == 'B'
  {
    forall c: Cell | InBounds(LAYOUT, c)
      ensures c in LAYOUT.goals <==> Tile(LAYOUT, c) == 'G'
      ensures c == LAYOUT.door <==> Tile(LAYOUT, c) == 'D'
      ensures c == LAYOUT.startA <==> Tile(LAYOUT, c) == 'A'
      ensures c == LAYOUT.startB <==> Tile(LAYOUT, c) == 'B'
    {
      var row := LAYOUT.rows[c.1];
      assert c.1 == 0 || c.1 == 1 || c.1 == 2 || c.1 == 3 || c.1 == 4 || c.1 == 5;
      assert row[c.0] == LAYOUT.rows[c.1][c.0];
    }
  }

  // ---------------------------------------------------------------------------------------------
  // One joint step
  // ---------------------------------------------------------------------------------------------

  datatype GridState = GridState(
    a: Cell, b: Cell, doorOpen: bool, jammed: bool, steps: nat, terminated: bool, truncated: bool)
  {
    function Of(agent: Agent): Cell {
      if agent == AgentA then a else b
    }

    function Place(agent: Agent, cell: Cell): GridState {
      if agent == AgentA then this.(a := cell) else this.(b := cell)
    }

    predicate Over() {
      terminated || truncated
    }
  }

  function Started(l: Layout, jammedAtStart: bool): GridState
  {
    GridState(l.startA, l.startB, false, jammedAtStart, 0, false, false)
  }

  predicate IsMove(action: Action)
  {
    action in {Left, Right, Up, Down}
  }

  function Target(c: Cell, action: Action): Cell
    requires IsMove(action)
  {
    match action
    case Left => (c.0 - 1, c.1)
    case Right => (c.0 + 1, c.1)
    case Up => (c.0, c.1 - 1)
    case Down => (c.0, c.1 + 1)
  }

  /** No wall, no closed door, not the other agent. */
  predicate Free(l: Layout, g: GridState, c: Cell, mover: Agent)
  {
    Walkable(l, c) && (c == l.door ==> g.doorOpen) && g.Of(Other(mover)) != c
  }

  function Moved(l: Layout, g: GridState, agent: Agent, action: Action): GridState
  {
    if IsMove(action) && Free(l, g, Target(g.Of(agent), action), agent)
      then g.Place(agent, Target(g.Of(agent), action)) else g
  }

  function Shaken(l: Layout, g: GridState, agent: Agent, action: Action): GridState
  {
    if action == Shake && IsHandle(l, g.Of(agent)) && !g.doorOpen then g.(jammed := false) else g
  }

  function Pulled(l: Layout, g: GridState, j: Joint): GridState
  {
    if j.a == Pull && j.b == Pull && IsHandle(l, g.a) && IsHandle(l, g.b) && !g.doorOpen
       && !g.jammed then g.(doorOpen := true) else g
  }

  function Judged(l: Layout, g: GridState, maxSteps: int): GridState
  {
    var done := g.a in l.goals && g.b in l.goals;
    g.(terminated := done, truncated := !done && g.steps >= maxSteps)
  }

  /** Movement in agent order, then the shakes, then the pull, then the verdict. */
  function Stepped(l: Layout, maxSteps: int, g: GridState, j: Joint): GridState
  {
    var moved := Moved(l, Moved(l, g.(steps := g.steps + 1), AgentA, j.a), AgentB, j.b);
    var shaken := Shaken(l, Shaken(l, moved, AgentA, j.a), AgentB, j.b);
    Judged(l, Pulled(l, shaken, j), maxSteps)
  }

  /** The door opens exactly when both agents pull, each on a handle, at a closed unjammed door. */
  lemma DoorOpensIff(l: Layout, maxSteps: int, g: GridState, j: Joint)
    ensures Stepped(l, maxSteps, g, j).doorOpen <==>
            g.doorOpen || (j == Joint(Pull, Pull) && IsHandle(l, g.a) && IsHandle(l, g.b) && !g.jammed)
  {
  }

  /** The jam goes exactly when somebody who stands on a handle shakes the closed door. */
  lemma JamClearsIff(l: Layout, maxSteps: int, g: GridState, j: Joint)
    ensures Stepped(l, maxSteps, g, j).jammed <==>
            g.jammed && (g.doorOpen || forall agent :: j.Of(agent) == Shake ==> !IsHandle(l, g.Of(agent)))
  {
    assert j.Of(AgentA) == j.a && j.Of(AgentB) == j.b && g.Of(AgentA) == g.a && g.Of(AgentB) == g.b;
    var moved := Moved(l, Moved(l, g.(steps := g.steps + 1), AgentA, j.a), AgentB, j.b);
    assert j.a == Shake ==> moved.a == g.a;
    assert j.b == Shake ==> moved.b == g.b;
  }

  /** Agent A moves first: B may follow into the cell A leaves, but A may not follow B. */
  lemma MovesAreInAgentOrder(l: Layout, maxSteps: int, g: GridState, first: Action, second: Action)
    requires IsMove(first) && IsMove(second) && Free(l, g, Target(g.a, first), AgentA) && Target(g.b, second) == g.a
    requires Walkable(l, g.a) && (g.a == l.door ==> g.doorOpen) && Target(g.a, first) != g.a
    ensures Stepped(l, maxSteps, g, Joint(first, second)).b == g.a
    ensures Target(g.a, first) == g.b ==> Stepped(l, maxSteps, g, Joint(first, second)).a == g.a
  {
  }

  // ---------------------------------------------------------------------------------------------
  // Invariants of every sequence of joint actions
  // ---------------------------------------------------------------------------------------------

  /** Distinct cells, no wall, no closed door under anyone, no jam on an open door. */
  predicate Placed(l: Layout, g: GridState)
  {
    && g.a != g.b && Walkable(l, g.a) && Walkable(l, g.b)
    && (!g.doorOpen ==> g.a != l.door && g.b != l.door)
    && (g.doorOpen ==> !g.jammed)
  }

  /** And the episode flags say what was judged. */
  predicate Safe(l: Layout, g: GridState)
  {
    && Placed(l, g)
    && !(g.terminated && g.truncated)
    && (g.terminated ==> g.a in l.goals && g.b in l.goals)
  }

  /** Stepping after the episode ended raises, and changes nothing. */
  function Play(l: Layout, maxSteps: int, g: GridState, joints: seq<Joint>): GridState
    decreases |joints|
  {
    if joints == [] then g
    else
      var before := Play(l, maxSteps, g, Init(joints));
      if before.Over() then before else Stepped(l, maxSteps, before, Last(joints))
  }

  lemma MoveIsSafe(l: Layout, g: GridState, agent: Agent, action: Action)
    requires Placed(l, g)
    ensures Placed(l, Moved(l, g, agent, action))
  {
  }

  lemma StepIsSafe(l: Layout, maxSteps: int, g: GridState, j: Joint)
    requires Safe(l, g)
    ensures Safe(l, Stepped(l, maxSteps, g, j))
  {
    hide Moved, Walkable;
    MoveIsSafe(l, g.(steps := g.steps + 1), AgentA, j.a);
    MoveIsSafe(l, Moved(l, g.(steps := g.steps + 1), AgentA, j.a), AgentB, j.b);
  }

  lemma {:induction false} PlayIsSafe(l: Layout, maxSteps: int, jammedAtStart: bool, joints: seq<Joint>)
    requires ValidLayout(l)
    ensures Safe(l, Play(l, maxSteps, Started(l, jammedAtStart), joints))
    decreases |joints|
  {
    if joints != [] {
      PlayIsSafe(l, maxSteps, jammedAtStart, Init(joints));
      StepIsSafe(l, maxSteps, Play(l, maxSteps, Started(l, jammedAtStart), Init(joints)), Last(joints));
    }
  }

  /** An open door stays open, a cleared jam stays cleared, an ended episode stays as it ended. */
  lemma {:induction false} PlayIsMonotone(l: Layout, maxSteps: int, g: GridState, joints: seq<Joint>)
    ensures var after := Play(l, maxSteps, g, joints);
            && (g.doorOpen ==> after.doorOpen) && (!g.jammed ==> !after.jammed) && (g.Over() ==> after == g)
            && g.steps <= after.steps <= g.steps + |joints|
    decreases |joints|
  {
    if joints != [] { PlayIsMonotone(l, maxSteps, g, Init(joints)); }
  }

  /** Every step takes one tick, and ends the episode if both agents are on goal cells or the limit is reached. */
  lemma StepIsJudged(l: Layout, maxSteps: int, g: GridState, j: Joint)
    ensures var h := Stepped(l, maxSteps, g, j);
            && h.steps == g.steps + 1
            && (h.terminated <==> h.a in l.goals && h.b in l.goals)
            && (h.truncated <==> !h.terminated && h.steps >= maxSteps)
  {
  }

  /** A cell of the map that is no wall, and not the door while that is closed. */
  ghost predicate OpenFloor(l: Layout, c: Cell, doorOpen: bool)
  {
    && 0 <= c.1 < |l.rows| && 0 <= c.0 < |l.rows[c.1]| && l.rows[c.1][c.0] != '#'
    && (c == l.door ==> doorOpen)
  }

  /** The mover ends on the cell its action names if that is free, and otherwise stays; the other agent stays. */
  lemma MoveMoves(l: Layout, g: GridState, agent: Agent, action: Action)
    ensures var h := Moved(l, g, agent, action);
            && h.Of(Other(agent)) == g.Of(Other(agent)) && h.doorOpen == g.doorOpen
            && (h.Of(agent) == g.Of(agent) || (IsMove(action) && h.Of(agent) == Target(g.Of(agent), action)))
            && (IsMove(action) ==>
                  var c := Target(g.Of(agent), action);
                  h.Of(agent) == c <==> OpenFloor(l, c, g.doorOpen) && c != g.Of(Other(agent)))
  {
  }

  /** Both agents of a joint step: A first, against where B stands; then B, against where A ended. */
  lemma StepMoves(l: Layout, maxSteps: int, g: GridState, j: Joint)
    ensures var h := Stepped(l, maxSteps, g, j);
            && (h.a == g.a || (IsMove(j.a) && h.a == Target(g.a, j.a)))
            && (h.b == g.b || (IsMove(j.b) && h.b == Target(g.b, j.b)))
            && (IsMove(j.a) ==>
                  var c := Target(g.a, j.a);
                  h.a == c <==> OpenFloor(l, c, g.doorOpen) && c != g.b)
            && (IsMove(j.b) ==>
                  var c := Target(g.b, j.b);
                  h.b == c <==> OpenFloor(l, c, g.doorOpen) && c != h.a)
  {
    hide Moved, OpenFloor, Target, IsHandle;
    var ticked := g.(steps := g.steps + 1);
    MoveMoves(l, ticked, AgentA, j.a);
    var between := Moved(l, ticked, AgentA, j.a);
    MoveMoves(l, between, AgentB, j.b);
    assert ticked.Of(AgentA) == g.a && ticked.Of(AgentB) == g.b;
    assert between.Of(AgentA) == between.a && between.Of(AgentB) == g.b;
    var moved := Moved(l, between, AgentB, j.b);
    assert moved.Of(AgentA) == moved.a == between.a && moved.Of(AgentB) == moved.b;
  }

  /** From a running state the episode ends for these two reasons only, and as soon as one of them holds. */
  lemma {:induction false} PlayIsJudged(l: Layout, maxSteps: int, g: GridState, joints: seq<Joint>)
    requires !g.Over()
    ensures var h := Play(l, maxSteps, g, joints);
            && (joints == [] ==> h == g)
            && (joints != [] ==> (h.terminated <==> h.a in l.goals && h.b in l.goals))
            && (joints != [] ==> (h.truncated <==> !h.terminated && h.steps >= maxSteps))
    decreases |joints|
  {
    if joints != [] {
      hide Stepped;
      PlayIsJudged(l, maxSteps, g, Init(joints));
      StepIsJudged(l, maxSteps, Play(l, maxSteps, g, Init(joints)), Last(joints));
    }
  }

  /** The clock counts the joint actions up to the first that ends the episode; the later ones are refused. */
  lemma {:induction false} PlayStopsAtTheEnd(l: Layout, maxSteps: int, g: GridState, joints: seq<Joint>)
    requires !g.Over()
    ensures var h := Play(l, maxSteps, g, joints);
            var n := h.steps - g.steps;
            && 0 <= n <= |joints| && h == Play(l, maxSteps, g, joints[..n])
            && (n < |joints| ==> h.Over())
            && forall k :: 0 <= k < n ==> !Play(l, maxSteps, g, joints[..k]).Over()
    decreases |joints|
  {
    if joints != [] {
      hide Stepped;
      var earlier := Init(joints);
      PlayStopsAtTheEnd(l, maxSteps, g, earlier);
      StepIsJudged(l, maxSteps, Play(l, maxSteps, g, earlier), Last(joints));
      assert joints[..|joints|] == joints && joints[..|earlier|] == earlier;
      assert forall k :: 0 <= k <= |earlier| ==> earlier[..k] == joints[..k];
    } else {
      assert joints[..0] == joints;
    }
  }

  /** A set of cells whose only way in is the door. */
  ghost predicate Sealed(l: Layout, room: set<Cell>)
  {
    && l.door !in room && l.startA !in room && l.startB !in room
    && forall c, action :: IsMove(action) && Walkable(l, c) && c != l.door && Target(c, action) in room ==> c in room
  }

  /** A cell the door separates from the starts is occupied only once the door is open. */
  lemma {:induction false} SealedRoomNeedsOpenDoor(l: Layout, maxSteps: int, jammedAtStart: bool, joints: seq<Joint>,
    room: set<Cell>)
    requires ValidLayout(l) && Sealed(l, room)
    ensures var g := Play(l, maxSteps, Started(l, jammedAtStart), joints);
            g.a in room || g.b in room ==> g.doorOpen
    decreases |joints|
  {
    hide Moved, Walkable;
    if joints != [] {
      SealedRoomNeedsOpenDoor(l, maxSteps, jammedAtStart, Init(joints), room);
      PlayIsSafe(l, maxSteps, jammedAtStart, Init(joints));
      var before := Play(l, maxSteps, Started(l, jammedAtStart), Init(joints));
      DoorOpensIff(l, maxSteps, before, Last(joints));
      if !before.Over() && !before.doorOpen {
        var ticked := before.(steps := before.steps + 1);
        ClosedDoorKeepsOut(l, ticked, AgentA, Last(joints).a, room);
        var between := Moved(l, ticked, AgentA, Last(joints).a);
        ClosedDoorKeepsOut(l, between, AgentB, Last(joints).b, room);
        var moved := Moved(l, between, AgentB, Last(joints).b);
        assert moved.Of(AgentA) == moved.a && moved.Of(AgentB) == moved.b;
        assert between.Of(AgentA) == between.a && between.Of(AgentB) == between.b;
      }
    }
  }

  lemma ClosedDoorKeepsOut(l: Layout, g: GridState, agent: Agent, action: Action, room: set<Cell>)
    requires Sealed(l, room) && Walkable(l, g.Of(agent)) && g.Of(agent) != l.door && g.Of(agent) !in room && !g.doorOpen
    ensures Moved(l, g, agent, action).Of(agent) !in room
    ensures Moved(l, g, agent, action).Of(Other(agent)) == g.Of(Other(agent)) && !Moved(l, g, agent, action).doorOpen
  {
  }

  /** In the frozen map the goal room is such a set, so no episode ends before the door was opened. */
  ghost function GoalRoom(): set<Cell>
  {
    set x, y | 1 <= x <= 7 && 3 <= y <= 4 :: (x, y)
  }

  lemma FrozenGoalRoomIsSealed()
    ensures Sealed(LAYOUT, GoalRoom()) && forall c :: c in LAYOUT.goals ==> c in GoalRoom()
  {
    forall c: Cell, action | IsMove(action) && Walkable(LAYOUT, c) && c != LAYOUT.door
        && Target(c, action) in GoalRoom()
      ensures c in GoalRoom()
    {
      assert c.1 == 2 || c.1 == 3 || c.1 == 4 || c.1 == 5;
      assert LAYOUT.rows[c.1][c.0] != '#';
    }
  }

  lemma TerminationNeedsOpenDoor(maxSteps: int, jammedAtStart: bool, joints: seq<Joint>)
    ensures var g := Play(LAYOUT, maxSteps, Started(LAYOUT, jammedAtStart), joints); g.terminated ==> g.doorOpen
  {
    FrozenLayoutIsValid();
    FrozenGoalRoomIsSealed();
    SealedRoomNeedsOpenDoor(LAYOUT, maxSteps, jammedAtStart, joints, GoalRoom());
    PlayIsSafe(LAYOUT, maxSteps, jammedAtStart, joints);
  }
}
