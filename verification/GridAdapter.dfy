/**
  The CooperativeGrid environment over its mutable simulator (domains/cooperative_grid/environment.py
  on the base of kit/environment.py): one call runs several joint steps and reads the simulator back.
*/
module GridAdapter {
  import opened Common
  import opened Skills
  import opened Search
  import opened Execution
  import opened Executive
  import opened Grid
  import opened GridBackend
  import opened GridModel

  type Answer = Response<GridWorld, GridCall>

  function NameOf(agent: Agent): string
  {
    if agent == AgentA then "A" else "B"
  }

  function AgentNamed(name: string): Option<Agent>
  {
    if name == "A" then Some(AgentA) else if name == "B" then Some(AgentB) else None
  }

  function PlacesOf(l: Layout): seq<Place>
  {
    [Place(HANDLE_LEFT, [HandleLeft(l)]), Place(HANDLE_RIGHT, [HandleRight(l)]), Place(GOAL, l.goals)]
  }

  /** The authoritative state as a value of the simulator's state. */
  function Read(l: Layout, g: GridState): GridWorld
  {
    GridWorld([Pose("A", g.a), Pose("B", g.b)], Door(DOOR, l.door, g.doorOpen, g.jammed), PlacesOf(l), g.Over())
  }

  /** The joint action that gives `action` to the named agents; other names are ignored. */
  function JointOf(names: set<string>, action: Action): Joint
  {
    Joint(if "A" in names then action else Noop, if "B" in names then action else Noop)
  }

  // ---------------------------------------------------------------------------------------------
  // The results an attempt can build
  // ---------------------------------------------------------------------------------------------

  /** An exception that escapes the attempt carries the primitives that had run. */
  function Escaped(primitives: nat): Answer
  {
    RaisedFault(Fault(BackendApiException, Unstaged, Some(primitives)), None)
  }

  /** A refusal by the base, before any attempt. */
  function RefusedCall(): Answer
  {
    RaisedFault(Fault(ExecutorMonitorProtocolFailure, Unstaged, None), None)
  }

  function Succeeded(c: GridCall, pre: GridWorld, post: GridWorld, primitives: nat): Answer
  {
    Returned(Result(c, Success, pre, post, primitives, None))
  }

  /**
    A changed world is a partial execution and nothing else; an unchanged one needs an explicit class, and
    the result record itself refuses a partial execution there.
  */
  function Failed(c: GridCall, pre: GridWorld, post: GridWorld, kind: Option<FailureClass>, primitives: nat): Answer
  {
    if WorldOf(pre) != WorldOf(post) then
      if kind.Some? && kind != Some(PartialExecution) then Escaped(primitives)
      else Returned(Result(c, Failure, pre, post, primitives, Some(PartialExecution)))
    else if kind.None? || kind == Some(PartialExecution) then Escaped(primitives)
    else Returned(Result(c, Failure, pre, post, primitives, kind))
  }

  /** A failure is returned if and only if its class fits the two states, and then its record is well formed. */
  lemma FailedMeans(c: GridCall, pre: GridWorld, post: GridWorld, kind: Option<FailureClass>, primitives: nat)
    ensures var answer := Failed(c, pre, post, kind, primitives);
            var changed := WorldOf(pre) != WorldOf(post);
            && (answer.Returned? <==>
                  if changed then kind in {None, Some(PartialExecution)}
                  else kind in {Some(Unchanged), Some(RejectedBeforeTransition)})
            && (answer.Returned? ==>
                  && WellFormedResult(answer.result, WorldOf) && answer.result.outcome == Failure
                  && answer.result.call == c && answer.result.pre == pre && answer.result.post == post
                  && answer.result.primitiveSteps == primitives && (!changed ==> answer.result.failureClass == kind))
            && (!answer.Returned? ==> answer == Escaped(primitives))
  {
    match kind
    case None =>
    case Some(Unchanged) =>
    case Some(PartialExecution) =>
    case Some(RejectedBeforeTransition) =>
  }

  /** The simulator after an attempt, and what the attempt answered. */
  datatype AttemptEnd = AttemptEnd(g: GridState, answer: Answer)

  /** Walk the route; a step after the end raises. `path` is what the router answered. */
  function GotoEnd(l: Layout, maxSteps: int, g: GridState, pre: GridWorld, c: GridCall,
    path: Option<seq<Action>>): AttemptEnd
  {
    if CellsOf(pre.places, c.target) == [] then AttemptEnd(g, Failed(c, pre, pre, Some(RejectedBeforeTransition), 0))
    else match AgentNamed(c.agent)
      case None => AttemptEnd(g, Escaped(0))
      case Some(agent) =>
        if path.None? then AttemptEnd(g, Failed(c, pre, pre, Some(RejectedBeforeTransition), 0))
        else WalkEnd(l, maxSteps, g, pre, c, agent, path.value)
  }

  function WalkEnd(l: Layout, maxSteps: int, g: GridState, pre: GridWorld, c: GridCall, agent: Agent,
    path: seq<Action>): AttemptEnd
  {
    var h := Play(l, maxSteps, g, Solos(agent, path));
    PlayIsMonotone(l, maxSteps, g, Solos(agent, path));
    var taken := h.steps - g.steps;
    if taken < |path| then AttemptEnd(h, Escaped(taken))
    else
      var post := Read(l, h);
      if PlaceOf(post, c.agent) == c.target then AttemptEnd(h, Succeeded(c, pre, post, taken))
      else AttemptEnd(h, Failed(c, pre, post, if WorldOf(post) != WorldOf(pre) then None else Some(Unchanged), taken))
  }

  /** One joint step, judged on the door it leaves. */
  function DoorEnd(l: Layout, maxSteps: int, g: GridState, pre: GridWorld, c: GridCall, j: Joint): AttemptEnd
  {
    if g.Over() then AttemptEnd(g, Escaped(0))
    else
      var h := Stepped(l, maxSteps, g, j);
      var post := Read(l, h);
      var done := if c.op == CooperateOpen then post.door.isOpen else !post.door.jammed;
      AttemptEnd(h, if done then Succeeded(c, pre, post, 1) else Failed(c, pre, post, Some(Unchanged), 1))
  }

  function PullNames(c: GridCall): set<string>
  {
    {c.agent, if c.partner.Some? then c.partner.value else c.agent}
  }

  function AttemptOf(l: Layout, maxSteps: int, g: GridState, pre: GridWorld, c: GridCall,
    path: Option<seq<Action>>): AttemptEnd
  {
    match c.op
    case Goto => GotoEnd(l, maxSteps, g, pre, c, path)
    case CooperateOpen => DoorEnd(l, maxSteps, g, pre, c, JointOf(PullNames(c), Pull))
    case ClearJam => DoorEnd(l, maxSteps, g, pre, c, JointOf({c.agent}, Shake))
  }

  /** The base's gates: reset, terminal, identities. */
  predicate ReachesAttempt(cached: Option<GridWorld>, c: GridCall)
  {
    cached.Some? && !cached.value.episodeOver && CallIdentities(c) <= Identities(cached.value)
  }

  function ExecuteEnd(l: Layout, maxSteps: int, g: GridState, cached: Option<GridWorld>, c: GridCall,
    path: Option<seq<Action>>): AttemptEnd
  {
    if cached.None? || cached.value.episodeOver then AttemptEnd(g, RefusedCall())
    else if !ReachesAttempt(cached, c) then AttemptEnd(g, Rejected(UngroundedCall))
    else AttemptOf(l, maxSteps, g, cached.value, c, path)
  }

  /** The cached state moves to the result's post-state, and only then. */
  function CachedAfter(cached: Option<GridWorld>, answer: Answer): Option<GridWorld>
  {
    if answer.Returned? then Some(answer.result.post) else cached
  }

  /** A walk of a known agent asks the router for the cells of its target in the cached state. */
  ghost predicate PathAnswers(l: Layout, g: GridState, cached: Option<GridWorld>, c: GridCall,
    path: Option<seq<Action>>)
  {
    ReachesAttempt(cached, c) && c.op == Goto && AgentNamed(c.agent).Some? ==>
      IsRoute(l, g, AgentNamed(c.agent).value, CellsOf(cached.value.places, c.target), path)
  }

  // ---------------------------------------------------------------------------------------------
  // What every attempt guarantees
  // ---------------------------------------------------------------------------------------------

  /** The cached state is what a fresh read would give. */
  predicate InSync(l: Layout, g: GridState, cached: Option<GridWorld>)
  {
    cached == Some(Read(l, g))
  }

  lemma StepKeepsPlaces(l: Layout, maxSteps: int, g: GridState, action: Action, names: set<string>)
    requires action in {Pull, Shake}
    ensures var h := Stepped(l, maxSteps, g, JointOf(names, action));
            h.a == g.a && h.b == g.b && (action == Shake ==> h.doorOpen == g.doorOpen)
            && (action == Pull ==> h.jammed == g.jammed)
  {
  }

  lemma PlacesRead(l: Layout, g: GridState, agent: Agent)
    ensures PlaceOf(Read(l, g), NameOf(agent)) == PlaceAt(PlacesOf(l), g.Of(agent))
    ensures Project(Read(l, g)).at == map["A" := PlaceAt(PlacesOf(l), g.a), "B" := PlaceAt(PlacesOf(l), g.b)]
    ensures Project(Read(l, g)).doorOpen == g.doorOpen
  {
    var s := Read(l, g);
    assert s.agents[0] in s.agents && s.agents[1] in s.agents;
    assert FindPose(s.agents[1..], "B") == Some(s.agents[1]);
  }

  /** The places of the map are disjoint, so a cell of a place is at that place and no other. */
  lemma PlacesAreDisjoint(l: Layout, target: string, cell: Cell)
    requires ValidLayout(l) && cell in CellsOf(PlacesOf(l), target)
    ensures PlaceAt(PlacesOf(l), cell) == target
  {
    var places := PlacesOf(l);
    assert places[1..] == [places[1], places[2]] && places[1..][1..] == [places[2]] && [places[2]][1..] == [];
    assert CellsOf([places[2]], target) == if target == GOAL then l.goals else [];
    assert PlaceAt([places[2]], cell) == if cell in l.goals then GOAL else HALL;
    assert CellsOf(places[1..], target) == if target == HANDLE_RIGHT then [HandleRight(l)]
      else CellsOf([places[2]], target);
    assert PlaceAt(places[1..], cell) == if cell == HandleRight(l) then HANDLE_RIGHT else PlaceAt([places[2]], cell);
  }

  lemma AgentNames(name: string)
    ensures AgentNamed(name).Some? ==> NameOf(AgentNamed(name).value) == name
  {
  }

  /** What a completed attempt promises about itself and about the state it leaves. */
  ghost predicate Refines(l: Layout, pre: GridWorld, c: GridCall, end: AttemptEnd)
  {
    end.answer.Returned? ==>
      var r := end.answer.result;
      && r.call == c && r.pre == pre && r.post == Read(l, end.g) && WellFormedResult(r, WorldOf)
      && (r.outcome.Success? ==> Project(r.post) == Apply(Project(pre), c))
      && r.failureClass != Some(PartialExecution)
  }

  lemma WalkRefines(l: Layout, maxSteps: int, g: GridState, c: GridCall, agent: Agent, path: seq<Action>)
    requires ValidLayout(l) && c.op == Goto && AgentNamed(c.agent) == Some(agent)
    requires IsRoute(l, g, agent, CellsOf(PlacesOf(l), c.target), Some(path))
    ensures Refines(l, Read(l, g), c, WalkEnd(l, maxSteps, g, Read(l, g), c, agent, path))
    ensures var e := WalkEnd(l, maxSteps, g, Read(l, g), c, agent, path);
            && (e.answer.Returned? <==> Unended(l, maxSteps, g, agent, path))
            && (e.answer.Returned? ==> e.answer.result.outcome.Success? && e.answer.result.primitiveSteps == |path|)
            && (!e.answer.Returned? ==> e.g.Over() && e.answer == Escaped(e.g.steps - g.steps))
  {
    hide Stepped, PlacesOf, Play, Project, IsRoute, PlaceOf;
    var h := Play(l, maxSteps, g, Solos(agent, path));
    PlayIsMonotone(l, maxSteps, g, Solos(agent, path));
    WalkFallsShortIff(l, maxSteps, g, agent, path);
    AgentNames(c.agent);
    if Unended(l, maxSteps, g, agent, path) {
      ArrivedProjects(l, maxSteps, g, c, agent, path);
    }
  }

  lemma ArrivedProjects(l: Layout, maxSteps: int, g: GridState, c: GridCall, agent: Agent, path: seq<Action>)
    requires ValidLayout(l) && AgentNamed(c.agent) == Some(agent)
    requires IsRoute(l, g, agent, CellsOf(PlacesOf(l), c.target), Some(path)) && Unended(l, maxSteps, g, agent, path)
    ensures var h := Play(l, maxSteps, g, Solos(agent, path));
            && PlaceOf(Read(l, h), c.agent) == c.target
            && Project(Read(l, h)) == Project(Read(l, g)).Moved(c.agent, c.target)
  {
    hide *;
    var h := Play(l, maxSteps, g, Solos(agent, path));
    WalkOfRoute(l, maxSteps, g, agent, CellsOf(PlacesOf(l), c.target), path);
    PlacesAreDisjoint(l, c.target, h.Of(agent));
    AgentNames(c.agent);
    MovedProjects(l, g, h, agent);
  }

  lemma MovedProjects(l: Layout, g: GridState, h: GridState, agent: Agent)
    requires h.Of(Other(agent)) == g.Of(Other(agent)) && h.doorOpen == g.doorOpen
    ensures var place := PlaceAt(PlacesOf(l), h.Of(agent));
            && PlaceOf(Read(l, h), NameOf(agent)) == place
            && Project(Read(l, h)) == Project(Read(l, g)).Moved(NameOf(agent), place)
  {
    hide PlacesOf, Project, PlaceOf;
    PlacesRead(l, g, agent);
    PlacesRead(l, h, agent);
    SameNames(l, g, h);
  }

  lemma WalkOfRoute(l: Layout, maxSteps: int, g: GridState, agent: Agent, targets: seq<Cell>, path: seq<Action>)
    requires IsRoute(l, g, agent, targets, Some(path)) && Unended(l, maxSteps, g, agent, path)
    ensures var h := Play(l, maxSteps, g, Solos(agent, path));
            h.Of(agent) in targets && h.Of(Other(agent)) == g.Of(Other(agent)) && h.doorOpen == g.doorOpen
  {
    WalkFollowsPath(l, maxSteps, g, agent, targets, path);
  }

  lemma SameNames(l: Layout, g: GridState, h: GridState)
    ensures Project(Read(l, g)).agents == Project(Read(l, h)).agents == {"A", "B"}
    ensures Project(Read(l, g)).places == Project(Read(l, h)).places
    ensures Project(Read(l, g)).door == Project(Read(l, h)).door == DOOR
  {
    assert Read(l, g).agents[0] in Read(l, g).agents && Read(l, g).agents[1] in Read(l, g).agents;
    assert Read(l, h).agents[0] in Read(l, h).agents && Read(l, h).agents[1] in Read(l, h).agents;
  }

  lemma DoorRefines(l: Layout, maxSteps: int, g: GridState, c: GridCall, j: Joint, names: set<string>)
    requires c.op in {CooperateOpen, ClearJam} && j == JointOf(names, if c.op == CooperateOpen then Pull else Shake)
    requires !g.Over()
    ensures Refines(l, Read(l, g), c, DoorEnd(l, maxSteps, g, Read(l, g), c, j))
    ensures DoorEnd(l, maxSteps, g, Read(l, g), c, j).answer.Returned?
  {
    hide Stepped, PlacesOf, Project;
    var h := Stepped(l, maxSteps, g, j);
    StepKeepsPlaces(l, maxSteps, g, if c.op == CooperateOpen then Pull else Shake, names);
    DoorOpensIff(l, maxSteps, g, j);
    JamClearsIff(l, maxSteps, g, j);
    PlacesRead(l, g, AgentA);
    PlacesRead(l, h, AgentA);
    SameNames(l, g, h);
  }

  /**
    The adapter refines its model: from a cached state in sync with the simulator, every attempt that
    returns a result reports a well-formed result between two fresh reads, a success realises exactly
    what the model predicts, and no failure is ever partial. The cache stays in sync with the result.
  */
  lemma AttemptRefinesModel(l: Layout, maxSteps: int, g: GridState, cached: Option<GridWorld>, c: GridCall,
    path: Option<seq<Action>>)
    requires ValidLayout(l) && InSync(l, g, cached) && PathAnswers(l, g, cached, c, path)
    ensures var e := ExecuteEnd(l, maxSteps, g, cached, c, path);
            && Refines(l, Read(l, g), c, e)
            && (e.answer.Returned? ==> InSync(l, e.g, CachedAfter(cached, e.answer)))
  {
    hide PlacesOf, Stepped, Play, Project, IsRoute, WalkEnd, DoorEnd;
    if ReachesAttempt(cached, c) {
      match c.op
      case Goto =>
        if AgentNamed(c.agent).Some? && path.Some? {
          WalkRefines(l, maxSteps, g, c, AgentNamed(c.agent).value, path.value);
        }
      case CooperateOpen => DoorRefines(l, maxSteps, g, c, JointOf(PullNames(c), Pull), PullNames(c));
      case ClearJam => DoorRefines(l, maxSteps, g, c, JointOf({c.agent}, Shake), {c.agent});
    }
  }

  /** So the derived monitor is silent on exactly the attempts that succeed. */
  lemma MonitorIsSilentIffSuccess(l: Layout, maxSteps: int, g: GridState, cached: Option<GridWorld>, c: GridCall,
    path: Option<seq<Action>>)
    requires ValidLayout(l) && InSync(l, g, cached) && PathAnswers(l, g, cached, c, path)
    requires ExecuteEnd(l, maxSteps, g, cached, c, path).answer.Returned?
    ensures var r := ExecuteEnd(l, maxSteps, g, cached, c, path).answer.result;
            DerivedMonitor(Project(r.pre), r) == [] <==> r.outcome.Success?
  {
    hide ExecuteEnd, Project;
    AttemptRefinesModel(l, maxSteps, g, cached, c, path);
  }

  /** A walk to a place succeeds exactly when a route exists and the episode does not end on the way. */
  lemma GotoSucceedsIff(l: Layout, maxSteps: int, g: GridState, c: GridCall, path: Option<seq<Action>>)
    requires ValidLayout(l) && !g.Over() && PathAnswers(l, g, Some(Read(l, g)), c, path)
    requires c.op == Goto && AgentNamed(c.agent).Some? && c.partner.None? && CellsOf(PlacesOf(l), c.target) != []
    ensures var answer := ExecuteEnd(l, maxSteps, g, Some(Read(l, g)), c, path).answer;
            && (answer.Returned? && answer.result.outcome.Success? <==>
                  path.Some? && Unended(l, maxSteps, g, AgentNamed(c.agent).value, path.value))
            && (answer.Returned? && !answer.result.outcome.Success? <==> path.None?)
            && (path.None? ==> answer == Returned(Result(c, Failure, Read(l, g), Read(l, g), 0,
                 Some(RejectedBeforeTransition))))
  {
    KnownIdentities(l, g, c);
    hide PlacesOf, Stepped, Play, Project, IsRoute, WalkEnd;
    if path.Some? {
      WalkRefines(l, maxSteps, g, c, AgentNamed(c.agent).value, path.value);
    }
  }

  lemma KnownIdentities(l: Layout, g: GridState, c: GridCall)
    requires AgentNamed(c.agent).Some? && (c.partner.Some? ==> AgentNamed(c.partner.value).Some?)
    requires c.target == DOOR || CellsOf(PlacesOf(l), c.target) != []
    ensures CallIdentities(c) <= Identities(Read(l, g))
  {
    var s := Read(l, g);
    assert s.agents[0] in s.agents && s.agents[1] in s.agents;
    assert s.places[0] in s.places && s.places[1] in s.places && s.places[2] in s.places;
    if c.target != DOOR {
      var places := PlacesOf(l);
      assert places[1..] == [places[1], places[2]] && places[1..][1..] == [places[2]] && [places[2]][1..] == [];
      assert CellsOf([places[2]], c.target) == if c.target == GOAL then l.goals else [];
    }
  }

  /** An agent is at a handle place exactly when it stands on that handle cell. */
  lemma AtHandle(l: Layout, cell: Cell)
    requires ValidLayout(l)
    ensures PlaceAt(PlacesOf(l), cell) == HANDLE_LEFT <==> cell == HandleLeft(l)
    ensures PlaceAt(PlacesOf(l), cell) == HANDLE_RIGHT <==> cell == HandleRight(l)
  {
    var places := PlacesOf(l);
    assert places[1..] == [places[1], places[2]] && places[1..][1..] == [places[2]] && [places[2]][1..] == [];
    assert PlaceAt([places[2]], cell) == if cell in l.goals then GOAL else HALL;
    assert PlaceAt(places[1..], cell) == if cell == HandleRight(l) then HANDLE_RIGHT else PlaceAt([places[2]], cell);
  }

  lemma BothPull(l: Layout, g: GridState, c: GridCall)
    requires ValidLayout(l) && c.op == CooperateOpen && Applicable(Project(Read(l, g)), c).ValidatedCall?
    ensures JointOf(PullNames(c), Pull) == Joint(Pull, Pull) && IsHandle(l, g.a) && IsHandle(l, g.b) && !g.doorOpen
  {
    hide PlacesOf, Project;
    PlacesRead(l, g, AgentA);
    SameNames(l, g, g);
    AtHandle(l, g.a);
    AtHandle(l, g.b);
    var sym := Project(Read(l, g));
    assert HANDLE_LEFT in {sym.Where(c.agent), sym.Where(c.partner.value)}
           && HANDLE_RIGHT in {sym.Where(c.agent), sym.Where(c.partner.value)};
  }

  /**
    The model is right about the door up to the jam it cannot see:
    an applicable pull opens it iff it is not jammed.
  */
  lemma ApplicableOpenSucceedsIff(l: Layout, maxSteps: int, g: GridState, c: GridCall, path: Option<seq<Action>>)
    requires ValidLayout(l) && !g.Over() && c.op == CooperateOpen && Applicable(Project(Read(l, g)), c).ValidatedCall?
    ensures var answer := ExecuteEnd(l, maxSteps, g, Some(Read(l, g)), c, path).answer;
            && answer.Returned? && (answer.result.outcome.Success? <==> !g.jammed) && answer.result.primitiveSteps == 1
            && (g.jammed ==> answer.result.failureClass == Some(Unchanged))
  {
    hide PlacesOf, Project, Stepped, PullNames;
    SameNames(l, g, g);
    KnownIdentities(l, g, c);
    BothPull(l, g, c);
    DoorOpensIff(l, maxSteps, g, Joint(Pull, Pull));
    DoorRefines(l, maxSteps, g, c, JointOf(PullNames(c), Pull), PullNames(c));
  }

  /** The recovery works: an applicable shake always succeeds, and the jam never comes back. */
  lemma ApplicableClearJamSucceeds(l: Layout, maxSteps: int, g: GridState, c: GridCall, path: Option<seq<Action>>,
    later: seq<Joint>)
    requires ValidLayout(l) && !g.Over() && c.op == ClearJam && Applicable(Project(Read(l, g)), c).ValidatedCall?
    ensures var e := ExecuteEnd(l, maxSteps, g, Some(Read(l, g)), c, path);
            && e.answer.Returned? && e.answer.result.outcome.Success?
            && !Play(l, maxSteps, e.g, later).jammed
  {
    hide PlacesOf, Project, Stepped;
    PlacesRead(l, g, AgentA);
    SameNames(l, g, g);
    AtHandle(l, g.a);
    AtHandle(l, g.b);
    KnownIdentities(l, g, c);
    var j := JointOf({c.agent}, Shake);
    JamClearsIff(l, maxSteps, g, j);
    assert j.Of(AgentA) == j.a && j.Of(AgentB) == j.b && g.Of(AgentA) == g.a && g.Of(AgentB) == g.b;
    PlayIsMonotone(l, maxSteps, Stepped(l, maxSteps, g, j), later);
  }

  /** The only faults of an attempt by a known agent: the episode ended before its last step. */
  lemma AttemptFaultsOnlyAtTheEnd(l: Layout, maxSteps: int, g: GridState, c: GridCall, path: Option<seq<Action>>)
    requires ValidLayout(l) && !g.Over() && PathAnswers(l, g, Some(Read(l, g)), c, path) && AgentNamed(c.agent).Some?
    ensures var e := ExecuteEnd(l, maxSteps, g, Some(Read(l, g)), c, path);
            e.answer.RaisedFault? ==> c.op == Goto && e.g.Over() && e.answer == Escaped(e.g.steps - g.steps)
  {
    hide PlacesOf, Stepped, Play, Project, IsRoute, WalkEnd, DoorEnd;
    match c.op
    case Goto =>
      if path.Some? && ReachesAttempt(Some(Read(l, g)), c) {
        WalkRefines(l, maxSteps, g, c, AgentNamed(c.agent).value, path.value);
      }
    case CooperateOpen => DoorRefines(l, maxSteps, g, c, JointOf(PullNames(c), Pull), PullNames(c));
    case ClearJam => DoorRefines(l, maxSteps, g, c, JointOf({c.agent}, Shake), {c.agent});
  }

  lemma HandleCells(l: Layout)
    ensures CellsOf(PlacesOf(l), HANDLE_RIGHT) == [HandleRight(l)]
  {
    var places := PlacesOf(l);
    assert places[1..] == [places[1], places[2]];
  }

  lemma {:induction false} PlayStops(l: Layout, maxSteps: int, g: GridState, agent: Agent, path: seq<Action>, i: nat)
    requires i <= |path| && Play(l, maxSteps, g, Solos(agent, path[..i])).Over()
    ensures Play(l, maxSteps, g, Solos(agent, path)) == Play(l, maxSteps, g, Solos(agent, path[..i]))
    decreases |path|
  {
    if i < |path| {
      SolosInit(agent, path);
      assert path[..i] == Init(path)[..i];
      PlayStops(l, maxSteps, g, agent, Init(path), i);
    } else {
      assert path[..i] == path;
    }
  }

  lemma NoTargetsNoRoute(l: Layout, g: GridState, agent: Agent)
    ensures IsRoute(l, g, agent, [], None)
  {
  }

  // ---------------------------------------------------------------------------------------------
  // The environment object
  // ---------------------------------------------------------------------------------------------

  class GridEnvironment {
    const backend: CooperativeGridEnv
    var state: Option<GridWorld>
    var primitiveSteps: nat
    var executed: seq<GridCall>

    /** The backend is reset together with the cached state. */
    ghost predicate Valid()
      reads this, backend
    {
      ValidLayout(backend.layout) && (state.Some? ==> backend.Valid())
    }

    constructor (backend: CooperativeGridEnv)
      requires ValidLayout(backend.layout)
      ensures Valid() && this.backend == backend && state == None && executed == []
    {
      this.backend := backend;
      state, primitiveSteps, executed := None, 0, [];
    }

    method ReadBack() returns (s: GridWorld)
      requires backend.Valid()
      ensures s == Read(backend.layout, backend.Value())
    {
      s := Read(backend.layout, backend.Value());
    }

    method Reset() returns (s: GridWorld)
      requires Valid()
      modifies this, backend
      ensures Valid() && state == Some(s) && executed == []
              && backend.Value() == Started(backend.layout, backend.jammedAtStart)
      ensures InSync(backend.layout, backend.Value(), state)
    {
      backend.Reset();
      s := ReadBack();
      state, executed := Some(s), [];
    }

    method WalkTo(call: GridCall, pre: GridWorld, agent: Agent, path: seq<Action>) returns (answer: Answer)
      requires backend.Valid() && primitiveSteps == 0
      modifies backend, this`primitiveSteps
      ensures backend.Valid()
      ensures AttemptEnd(backend.Value(), answer) ==
              WalkEnd(backend.layout, backend.maxSteps, old(backend.Value()), pre, call, agent, path)
    {
      hide Stepped, Safe, ValidLayout, Read;
      ghost var g := backend.Value();
      for i := 0 to |path|
        invariant backend.Valid() && primitiveSteps == i
        invariant backend.Value() == Play(backend.layout, backend.maxSteps, g, Solos(agent, path[..i]))
        invariant backend.Value().steps == g.steps + i
      {
        SolosInit(agent, path[..i + 1]);
        assert Init(path[..i + 1]) == path[..i];
        var ok := backend.Step(Solo(agent, path[i]));
        if !ok {
          PlayStops(backend.layout, backend.maxSteps, g, agent, path, i);
          return Escaped(primitiveSteps);
        }
        OneTick(backend.layout, backend.maxSteps, Play(backend.layout, backend.maxSteps, g, Solos(agent, path[..i])),
          Solo(agent, path[i]));
        primitiveSteps := primitiveSteps + 1;
      }
      assert path[..|path|] == path;
      var post := ReadBack();
      if PlaceOf(post, call.agent) == call.target {
        return Succeeded(call, pre, post, primitiveSteps);
      }
      return Failed(call, pre, post, if WorldOf(post) != WorldOf(pre) then None else Some(Unchanged), primitiveSteps);
    }

    method GotoPlace(call: GridCall, pre: GridWorld) returns (answer: Answer, ghost path: Option<seq<Action>>)
      requires backend.Valid() && primitiveSteps == 0
      modifies backend, this`primitiveSteps
      ensures backend.Valid()
      ensures AgentNamed(call.agent).Some? ==>
        IsRoute(backend.layout, old(backend.Value()), AgentNamed(call.agent).value,
          CellsOf(pre.places, call.target), path)
      ensures AttemptEnd(backend.Value(), answer) == GotoEnd(backend.layout, backend.maxSteps,
                old(backend.Value()), pre, call, path)
    {
      hide WalkEnd, Safe, ValidLayout, IsRoute;
      path := None;
      var targets := CellsOf(pre.places, call.target);
      var agent := AgentNamed(call.agent);
      if targets == [] {
        if agent.Some? { NoTargetsNoRoute(backend.layout, backend.Value(), agent.value); }
        return Failed(call, pre, pre, Some(RejectedBeforeTransition), 0), path;
      }
      if agent.None? {
        return Escaped(0), path;
      }
      var route := backend.Route(agent.value, targets);
      path := route;
      if route.None? {
        return Failed(call, pre, pre, Some(RejectedBeforeTransition), 0), path;
      }
      answer := WalkTo(call, pre, agent.value, route.value);
    }

    /** Both door skills: one joint step, then a fresh read. */
    method ActAtDoor(call: GridCall, pre: GridWorld, j: Joint) returns (answer: Answer)
      requires backend.Valid() && primitiveSteps == 0
      modifies backend, this`primitiveSteps
      ensures backend.Valid()
      ensures AttemptEnd(backend.Value(), answer) == DoorEnd(backend.layout, backend.maxSteps,
                old(backend.Value()), pre, call, j)
    {
      hide Stepped, Safe, ValidLayout, PlacesOf;
      var ok := backend.Step(j);
      if !ok {
        return Escaped(primitiveSteps);
      }
      primitiveSteps := primitiveSteps + 1;
      var post := ReadBack();
      var done := if call.op == CooperateOpen then post.door.isOpen else !post.door.jammed;
      return if done then Succeeded(call, pre, post, primitiveSteps)
        else Failed(call, pre, post, Some(Unchanged), primitiveSteps);
    }

    /** The base's gates, one attempt, and the cached state advanced by a returned result only. */
    method ExecuteSkill(call: GridCall) returns (answer: Answer, ghost path: Option<seq<Action>>)
      requires Valid()
      modifies this, backend
      ensures Valid() && state == CachedAfter(old(state), answer)
      ensures executed == if answer.Returned? then old(executed) + [call] else old(executed)
      ensures old(state).None? ==> answer == RefusedCall()
      ensures old(state).Some? ==>
        && PathAnswers(backend.layout, old(backend.Value()), old(state), call, path)
        && AttemptEnd(backend.Value(), answer) ==
           ExecuteEnd(backend.layout, backend.maxSteps, old(backend.Value()), old(state), call, path)
    {
      hide GotoEnd, DoorEnd, PlacesOf, ValidLayout, IsRoute, Identities, CallIdentities;
      path := None;
      if state.None? || state.value.episodeOver {
        return RefusedCall(), path;
      }
      var pre := state.value;
      if !(CallIdentities(call) <= Identities(pre)) {
        return Rejected(UngroundedCall), path;
      }
      primitiveSteps := 0;
      match call.op {
        case Goto =>
          answer, path := GotoPlace(call, pre);
        case CooperateOpen =>
          answer := ActAtDoor(call, pre, JointOf(PullNames(call), Pull));
        case ClearJam =>
          answer := ActAtDoor(call, pre, JointOf({call.agent}, Shake));
      }
      if answer.Returned? {
        state := Some(answer.result.post);
        executed := executed + [call];
      }
    }
  }
}
