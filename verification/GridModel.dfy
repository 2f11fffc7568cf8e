/**
  The CooperativeGrid domain: its values and its optimistic symbolic model
  (domains/cooperative_grid/types.py, domains/cooperative_grid/model.py, kit/services.py).

  The model's sorted tuples of distinct names are the sets, and its sorted (agent, place) pairs the
  map, that they list.
*/
module GridModel {
  import opened Common
  import opened Skills
  import opened Execution
  import opened Executive

  const DOOR := "door"
  const HANDLE_LEFT := "handle_left"
  const HANDLE_RIGHT := "handle_right"
  const GOAL := "goal"
  const HALL := "hall"
  const HANDLES: set<string> := {HANDLE_LEFT, HANDLE_RIGHT}

  datatype Op = Goto | CooperateOpen | ClearJam

  datatype GridCall = GridCall(op: Op, agent: string, target: string, partner: Option<string>)

  datatype Pose = Pose(name: string, cell: Cell)

  datatype Door = Door(name: string, cell: Cell, isOpen: bool, jammed: bool)

  datatype Place = Place(name: string, cells: seq<Cell>)

  /** The authoritative world, and the episode flag that is no part of it. */
  datatype GridWorld = GridWorld(agents: seq<Pose>, door: Door, places: seq<Place>, episodeOver: bool)

  function WorldOf(s: GridWorld): (seq<Pose>, Door, seq<Place>)
  {
    (s.agents, s.door, s.places)
  }

  function Identities(s: GridWorld): set<string>
  {
    (set a | a in s.agents :: a.name) + {s.door.name} + (set p | p in s.places :: p.name)
  }

  function CallIdentities(c: GridCall): set<string>
  {
    {c.agent, c.target} + if c.partner.Some? then {c.partner.value} else {}
  }

  function FindPose(agents: seq<Pose>, name: string): Option<Pose>
  {
    if agents == [] then None else if agents[0].name == name then Some(agents[0]) else FindPose(agents[1..], name)
  }

  function CellsOf(places: seq<Place>, name: string): seq<Cell>
  {
    if places == [] then [] else if places[0].name == name then places[0].cells else CellsOf(places[1..], name)
  }

  function PlaceAt(places: seq<Place>, c: Cell): string
  {
    if places == [] then HALL else if c in places[0].cells then places[0].name else PlaceAt(places[1..], c)
  }

  /** The first named place the agent stands on, or the hall. */
  function PlaceOf(s: GridWorld, name: string): string
  {
    match FindPose(s.agents, name)
    case None => HALL
    case Some(pose) => PlaceAt(s.places, pose.cell)
  }

  predicate IsSatisfiedBy(s: GridWorld)
  {
    s.agents != [] && forall i :: 0 <= i < |s.agents| ==> PlaceOf(s, s.agents[i].name) == GOAL
  }

  // ---------------------------------------------------------------------------------------------
  // The symbolic model
  // ---------------------------------------------------------------------------------------------

  datatype SymState = SymState(agents: set<string>, places: set<string>, door: string,
    at: map<string, string>, doorOpen: bool)
  {
    function Where(agent: string): string {
      if agent in at then at[agent] else HALL
    }

    function Moved(agent: string, place: string): SymState {
      this.(at := map a | a in at :: if a == agent then place else at[a])
    }
  }

  /** Cells become place names; the jam is left behind. */
  function Project(s: GridWorld): SymState
  {
    var names := set a | a in s.agents :: a.name;
    SymState(names, set p | p in s.places :: p.name, s.door.name, map a | a in names :: PlaceOf(s, a), s.door.isOpen)
  }

  function Apply(sym: SymState, c: GridCall): SymState
  {
    match c.op
    case Goto => sym.Moved(c.agent, c.target)
    case CooperateOpen => sym.(doorOpen := true)
    case ClearJam => sym
  }

  predicate Taken(sym: SymState, c: GridCall)
  {
    exists a :: a in sym.at && sym.at[a] == c.target && a != c.agent
  }

  function ApplicableGoto(sym: SymState, c: GridCall): bool
  {
    && c.partner.None? && c.target in sym.places && sym.Where(c.agent) != c.target
    && (c.target == GOAL ==> sym.doorOpen)
    && (c.target in HANDLES ==> !Taken(sym, c))
  }

  function ApplicableAtDoor(sym: SymState, c: GridCall): bool
  {
    && c.target == sym.door && !sym.doorOpen
    && (if c.op == CooperateOpen then
          && c.partner.Some? && c.partner.value != c.agent && c.partner.value in sym.agents
          && {sym.Where(c.agent), sym.Where(c.partner.value)} == HANDLES
        else c.partner.None? && sym.Where(c.agent) in HANDLES)
  }

  function Applicable(sym: SymState, c: GridCall): CallValidation
  {
    if c.agent in sym.agents && (if c.op == Goto then ApplicableGoto(sym, c) else ApplicableAtDoor(sym, c))
    then ValidatedCall else SymbolicallyInapplicable
  }

  /** The planner's goal test is the task's, seen through the projection. */
  lemma GoalIsTheTask(s: GridWorld)
    ensures IsSatisfiedBy(s) <==> Project(s).at != map[] && forall a :: a in Project(s).at ==> Project(s).at[a] == GOAL
  {
    if s.agents != [] {
      assert s.agents[0].name in Project(s).at;
    }
    forall i | 0 <= i < |s.agents|
      ensures s.agents[i].name in Project(s).at
    {
      assert s.agents[i] in s.agents;
    }
  }

  /** The model cannot see the jam, so no verdict and no prediction depends on it. */
  lemma JamIsHidden(s: GridWorld, jammed: bool, c: GridCall)
    ensures var t := s.(door := s.door.(jammed := jammed));
            Project(t) == Project(s) && Applicable(Project(t), c) == Applicable(Project(s), c)
  {
    var t := s.(door := s.door.(jammed := jammed));
    assert forall a :: PlaceOf(t, a) == PlaceOf(s, a);
  }

  // ---------------------------------------------------------------------------------------------
  // The derived monitor
  // ---------------------------------------------------------------------------------------------

  type GridResult = ExecutionResult<GridWorld, GridCall>

  datatype DerivedKind = DerivedFailure | DerivedMismatch(predicted: SymState, observed: SymState)

  /** Without a world model the derived monitor compares on the symbolic basis only. */
  function DerivedMonitor(pre: SymState, r: GridResult): seq<DerivedKind>
  {
    if !r.outcome.Success? then [DerivedFailure]
    else if Apply(pre, r.call) != Project(r.post) then [DerivedMismatch(Apply(pre, r.call), Project(r.post))]
    else []
  }
}
