/**
  The CooperativeGrid domain under the executive loop (domains/cooperative_grid/__init__.py over
  kit/track.py): what the hidden jam does to a run. The simulator, its router, the adapter, the
  optimistic model, its planner, the policies and the loop all take part.
*/
module GridExecutive {
  import opened Common
  import opened Skills
  import opened Search
  import opened Execution
  import opened Executive
  import opened Grid
  import opened GridBackend
  import opened GridModel
  import opened GridPlanning
  import opened GridAdapter
  import opened GridSession
  import opened LoopModel
  import opened LoopTheorems
  import opened LoopOutcomes

  // ---------------------------------------------------------------------------------------------
  // The environment as an oracle
  // ---------------------------------------------------------------------------------------------

  /** What the router answers. */
  ghost function RouteOf(l: Layout, g: GridState, agent: Agent, targets: seq<Cell>): (r: Option<seq<Action>>)
    ensures IsRoute(l, g, agent, targets, r)
  {
    var answer := ExactAnswer(RouteProblem(l, g, agent, targets));
    if answer.PlanFound? then Some(answer.plan) else None
  }

  ghost function AskOf(l: Layout, s: EnvState, c: GridCall): (ask: Ask)
    ensures ask.call == c && RouterAnswers(l, s, ask)
  {
    Ask(c, if s.cached.Some? && AgentNamed(c.agent).Some?
           then RouteOf(l, s.g, AgentNamed(c.agent).value, CellsOf(s.cached.value.places, c.target))
           else None)
  }

  type GridLog = seq<Exchange<GridWorld, GridCall>>

  /** The simulator and the cache after the calls of a log. */
  ghost function StateAfter(l: Layout, maxSteps: int, s: EnvState, log: GridLog): EnvState
    decreases |log|
  {
    if log == [] then s
    else
      var before := StateAfter(l, maxSteps, s, Init(log));
      GridSession.After(l, maxSteps, before, AskOf(l, before, Last(log).call))
  }

  ghost function Exported(l: Layout, s: EnvState): GridWorld
  {
    if s.cached.Some? then s.cached.value else Read(l, s.g)
  }

  ghost function GridOracle(l: Layout, maxSteps: int, s: EnvState): Environment<GridWorld, GridCall>
  {
    Environment((n: nat, h: GridLog) => Exported(l, StateAfter(l, maxSteps, s, h)),
      (h: GridLog, c: GridCall) => EndOf(l, maxSteps, StateAfter(l, maxSteps, s, h),
        AskOf(l, StateAfter(l, maxSteps, s, h), c)).answer)
  }

  lemma StateAfterOne(l: Layout, maxSteps: int, s: EnvState, log: GridLog, e: Exchange<GridWorld, GridCall>)
    ensures StateAfter(l, maxSteps, s, log + [e]) ==
            GridSession.After(l, maxSteps, StateAfter(l, maxSteps, s, log),
              AskOf(l, StateAfter(l, maxSteps, s, log), e.call))
  {
    assert Init(log + [e]) == log;
  }

  // ---------------------------------------------------------------------------------------------
  // The composition
  // ---------------------------------------------------------------------------------------------

  type GridSetup = Setup<GridWorld, SymState, GridCall>
  type GridLoop = LoopState<GridWorld, SymState, GridCall>

  /** After a failed opening the pulling agent is advised to shake the door. */
  function Recover(report: Report<GridCall>): seq<GridCall>
  {
    if report.call.op == CooperateOpen then [GridCall(ClearJam, report.call.agent, report.call.target, None)] else []
  }

  function GridReports(b: SymState, r: GridResult): seq<Report<GridCall>>
  {
    var kinds := DerivedMonitor(b, r);
    seq(|kinds|, i requires 0 <= i < |kinds| => Report(r.call, kinds[i].DerivedFailure?))
  }

  /** The belief is always the projection of the last synced state; outcomes are only recorded. */
  function ComposeGrid(plan: (SymState, GridWorld) -> PlannerResult<GridCall>, env: Environment<GridWorld, GridCall>,
    config: OrchestrationConfig, policy: Policy, worldKey: GridWorld -> string): GridSetup
  {
    Setup(env, config, policy, plan,
      (s: GridWorld, c: GridCall) => CallIdentities(c) <= Identities(s),
      (b: SymState, c: GridCall) => Applicable(b, c),
      (b: SymState, r: GridResult) => Reported(GridReports(b, r)),
      (b: SymState, s: GridWorld) => Project(s),
      (b: SymState, r: GridResult) => b,
      (s: GridWorld) => IsSatisfiedBy(s),
      worldKey, None, Some((report: Report<GridCall>) => Recover(report)))
  }

  /** The planner column is the model's planner, with a node budget that covers its states. */
  ghost predicate PlansInModel(plan: (SymState, GridWorld) -> PlannerResult<GridCall>, budget: int)
  {
    budget >= 32 && forall b, s :: TwoAgents(b) && Orderly(b) ==> Correct(ModelProblem(b), ModelKey, budget, plan(b, s))
  }

  /** The digest is of the world content and shows whether the door is jammed. */
  ghost predicate DigestsWorlds(worldKey: GridWorld -> string)
  {
    && (forall s, t :: WorldOf(s) == WorldOf(t) ==> worldKey(s) == worldKey(t))
    && (forall s, t :: worldKey(s) == worldKey(t) ==> s.door.jammed == t.door.jammed)
  }

  // ---------------------------------------------------------------------------------------------
  // Walks on the frozen map
  // ---------------------------------------------------------------------------------------------

  /** A shortest route meets no target before its end. */
  lemma RouteMissesBefore(l: Layout, g: GridState, agent: Agent, targets: seq<Cell>, path: seq<Action>, i: nat)
    requires IsRoute(l, g, agent, targets, Some(path)) && i < |path|
    ensures Reached(RouteProblem(l, g, agent, targets), path[..i]).Some?
    ensures Reached(RouteProblem(l, g, agent, targets), path[..i]).value !in targets
  {
    hide Leq;
    var p := RouteProblem(l, g, agent, targets);
    PrefixIsReached(p, path, i);
    if IsPlan(p, path[..i]) {
      LeqIsNoLonger(p.calls, path, path[..i]);
    }
  }

  /** A route that fits the step limit is not ended on the way: the last target would be the first to end it. */
  lemma {:induction false} RouteIsNotCut(l: Layout, maxSteps: int, g: GridState, agent: Agent, targets: seq<Cell>,
    path: seq<Action>, n: nat)
    requires IsRoute(l, g, agent, targets, Some(path)) && n <= |path| && !g.Over() && g.steps + |path| <= maxSteps
    requires g.Of(Other(agent)) !in l.goals || targets == l.goals
    ensures Unended(l, maxSteps, g, agent, path[..n])
    decreases n
  {
    if n > 0 {
      hide Play, IsRoute;
      RouteIsNotCut(l, maxSteps, g, agent, targets, path, n - 1);
      PrefixIsNotOver(l, maxSteps, g, agent, targets, path, n - 1);
      UnendedStep(l, maxSteps, g, agent, path, n - 1);
    }
  }

  lemma UnendedStep(l: Layout, maxSteps: int, g: GridState, agent: Agent, path: seq<Action>, i: nat)
    requires i < |path| && Unended(l, maxSteps, g, agent, path[..i])
    requires !Play(l, maxSteps, g, Solos(agent, path[..i])).Over()
    ensures Unended(l, maxSteps, g, agent, path[..i + 1])
  {
    hide Play;
    var longer := path[..i + 1];
    forall k | 0 <= k < |longer|
      ensures !Play(l, maxSteps, g, Solos(agent, longer[..k])).Over()
    {
      assert longer[..k] == path[..k];
      if k < i { assert path[..i][..k] == path[..k]; }
    }
  }

  lemma PrefixIsNotOver(l: Layout, maxSteps: int, g: GridState, agent: Agent, targets: seq<Cell>, path: seq<Action>,
    i: nat)
    requires IsRoute(l, g, agent, targets, Some(path)) && i < |path| && !g.Over() && g.steps + |path| <= maxSteps
    requires g.Of(Other(agent)) !in l.goals || targets == l.goals
    requires Unended(l, maxSteps, g, agent, path[..i])
    ensures !Play(l, maxSteps, g, Solos(agent, path[..i])).Over()
  {
    hide Play, IsRoute, Reached, Unended;
    RouteMissesBefore(l, g, agent, targets, path, i);
    WalkFollowsPath(l, maxSteps, g, agent, targets, path[..i]);
    PlayIsJudged(l, maxSteps, g, Solos(agent, path[..i]));
    if i == 0 { NoWalk(l, maxSteps, g, agent, path[..i]); }
  }

  lemma NoWalk(l: Layout, maxSteps: int, g: GridState, agent: Agent, path: seq<Action>)
    requires path == []
    ensures Play(l, maxSteps, g, Solos(agent, path)) == g
  {
  }

  // ---------------------------------------------------------------------------------------------
  // The attempts of this story
  // ---------------------------------------------------------------------------------------------

  const WALK_LEFT := GridCall(Goto, "A", HANDLE_LEFT, None)
  const WALK_RIGHT := GridCall(Goto, "B", HANDLE_RIGHT, None)
  const OPEN := GridCall(CooperateOpen, "A", DOOR, Some("B"))
  const SHAKE := GridCall(ClearJam, "A", DOOR, None)
  const ENTER_A := GridCall(Goto, "A", GOAL, None)
  const ENTER_B := GridCall(Goto, "B", GOAL, None)

  /** In sync, running, and this many joint steps old. */
  predicate Runs(s: EnvState, a: Cell, b: Cell, doorOpen: bool, jammed: bool)
  {
    && InSync(LAYOUT, s.g, s.cached) && !s.g.Over()
    && s.g.a == a && s.g.b == b && s.g.doorOpen == doorOpen && s.g.jammed == jammed
  }

  /** The attempt of a call in a state, and the state after it. */
  ghost function AnswerIn(maxSteps: int, s: EnvState, c: GridCall): Answer
  {
    EndOf(LAYOUT, maxSteps, s, AskOf(LAYOUT, s, c)).answer
  }

  ghost function NextOf(maxSteps: int, s: EnvState, c: GridCall): EnvState
  {
    GridSession.After(LAYOUT, maxSteps, s, AskOf(LAYOUT, s, c))
  }

  /** A success between two fresh reads that costs what the simulator's clock shows. */
  ghost predicate Succeeds(maxSteps: int, s: EnvState, c: GridCall)
  {
    var answer, t := AnswerIn(maxSteps, s, c), NextOf(maxSteps, s, c);
    && answer.Returned? && answer.result.outcome.Success? && answer.result.call == c
    && answer.result.post == Read(LAYOUT, t.g) && InSync(LAYOUT, t.g, t.cached)
    && t.g.steps == s.g.steps + answer.result.primitiveSteps
  }

  /** A walk along a free trail that fits the step limit succeeds, in no more steps than the trail has. */
  lemma WalkSucceeds(maxSteps: int, s: EnvState, agent: Agent, target: string, trail: seq<Action>)
    requires InSync(LAYOUT, s.g, s.cached) && !s.g.Over() && s.g.steps + |trail| < maxSteps
    requires (forall i :: 0 <= i < |trail| ==> IsMove(trail[i]))
             && Trail(LAYOUT, s.g, agent, s.g.Of(agent), trail).Some?
    requires Trail(LAYOUT, s.g, agent, s.g.Of(agent), trail).value in CellsOf(PlacesOf(LAYOUT), target)
    requires s.g.Of(Other(agent)) !in LAYOUT.goals || CellsOf(PlacesOf(LAYOUT), target) == LAYOUT.goals
    ensures var c := GridCall(Goto, NameOf(agent), target, None);
            var t := NextOf(maxSteps, s, c);
            && Succeeds(maxSteps, s, c) && t.g.steps <= s.g.steps + |trail|
            && t.g.Of(agent) in CellsOf(PlacesOf(LAYOUT), target) && t.g.Of(Other(agent)) == s.g.Of(Other(agent))
            && t.g.doorOpen == s.g.doorOpen && t.g.jammed == s.g.jammed
            && (t.g.Over() ==> t.g.a in LAYOUT.goals && t.g.b in LAYOUT.goals)
    ensures TwoAway(s.g.Of(agent), CellsOf(PlacesOf(LAYOUT), target)) ==>
              NextOf(maxSteps, s, GridCall(Goto, NameOf(agent), target, None)).g.steps >= s.g.steps + 2
  {
    hide Play, IsRoute, PlacesOf, Project, Trail, Read;
    var c := GridCall(Goto, NameOf(agent), target, None);
    FrozenLayoutIsValid();
    var targets := CellsOf(PlacesOf(LAYOUT), target);
    var path := RouteExists(LAYOUT, s.g, agent, targets, trail);
    ReadParts(LAYOUT, s.g);
    assert AskOf(LAYOUT, s, c) == Ask(c, RouteOf(LAYOUT, s.g, agent, targets));
    RouteIsUnique(LAYOUT, s.g, agent, targets, Some(path), RouteOf(LAYOUT, s.g, agent, targets));
    RouteIsNotCut(LAYOUT, maxSteps, s.g, agent, targets, path, |path|);
    assert path[..|path|] == path;
    WalkArrives(maxSteps, s, agent, target, path);
    if TwoAway(s.g.Of(agent), targets) { FirstMove(LAYOUT, s.g, agent, targets, path); }
  }

  /** No target is here or one move away. */
  ghost predicate TwoAway(cell: Cell, targets: seq<Cell>)
  {
    cell !in targets && forall m :: IsMove(m) ==> Target(cell, m) !in targets
  }

  lemma ReadParts(l: Layout, g: GridState)
    ensures Read(l, g).places == PlacesOf(l) && Read(l, g).episodeOver == g.Over()
  {
  }

  /** The routed walk, followed step by step. */
  lemma WalkArrives(maxSteps: int, s: EnvState, agent: Agent, target: string, path: seq<Action>)
    requires InSync(LAYOUT, s.g, s.cached) && !s.g.Over() && s.g.steps + |path| < maxSteps
    requires var targets := CellsOf(PlacesOf(LAYOUT), target);
             targets != [] && IsRoute(LAYOUT, s.g, agent, targets, Some(path))
             && Unended(LAYOUT, maxSteps, s.g, agent, path)
    requires AskOf(LAYOUT, s, GridCall(Goto, NameOf(agent), target, None)) ==
               Ask(GridCall(Goto, NameOf(agent), target, None), Some(path))
    ensures var c := GridCall(Goto, NameOf(agent), target, None);
            var t := NextOf(maxSteps, s, c);
            && Succeeds(maxSteps, s, c) && t.g.steps == s.g.steps + |path|
            && t.g.Of(agent) in CellsOf(PlacesOf(LAYOUT), target) && t.g.Of(Other(agent)) == s.g.Of(Other(agent))
            && t.g.doorOpen == s.g.doorOpen && t.g.jammed == s.g.jammed
            && (t.g.Over() ==> t.g.a in LAYOUT.goals && t.g.b in LAYOUT.goals)
  {
    hide Play, IsRoute, PlacesOf, Project, Unended, Stepped, Identities, PlaceOf;
    var c := GridCall(Goto, NameOf(agent), target, None);
    var targets := CellsOf(PlacesOf(LAYOUT), target);
    FrozenLayoutIsValid();
    NamesAgree(agent);
    KnownIdentities(LAYOUT, s.g, c);
    WalkRefines(LAYOUT, maxSteps, s.g, c, agent, path);
    WalkOfRoute(LAYOUT, maxSteps, s.g, agent, targets, path);
    WalkLags(LAYOUT, maxSteps, s.g, c, agent, path);
    PlayIsJudged(LAYOUT, maxSteps, s.g, Solos(agent, path));
    WalkFallsShortIff(LAYOUT, maxSteps, s.g, agent, path);
  }

  lemma NamesAgree(agent: Agent)
    ensures AgentNamed(NameOf(agent)) == Some(agent)
  {
  }

  lemma HandlePlaces()
    ensures CellsOf(PlacesOf(LAYOUT), HANDLE_LEFT) == [(3, 1)] && CellsOf(PlacesOf(LAYOUT), HANDLE_RIGHT) == [(5, 1)]
    ensures CellsOf(PlacesOf(LAYOUT), GOAL) == LAYOUT.goals
  {
    HandleCells(LAYOUT);
    GoalCells(LAYOUT);
  }

  lemma LeftWalk(maxSteps: int, s: EnvState, jammed: bool)
    requires Runs(s, (1, 1), (7, 1), false, jammed) && s.g.steps + 2 < maxSteps
    ensures Succeeds(maxSteps, s, WALK_LEFT)
    ensures var t := NextOf(maxSteps, s, WALK_LEFT);
            Runs(t, (3, 1), (7, 1), false, jammed) && t.g.steps == s.g.steps + 2
  {
    hide Succeeds, NextOf, PlacesOf;
    HandlePlaces();
    assert [Right, Right][1..] == [Right];
    assert Trail(LAYOUT, s.g, AgentA, (2, 1), [Right]) == Some((3, 1));
    WalkSucceeds(maxSteps, s, AgentA, HANDLE_LEFT, [Right, Right]);
    SyncedNext(maxSteps, s, WALK_LEFT);
  }

  lemma RightWalk(maxSteps: int, s: EnvState, jammed: bool)
    requires Runs(s, (3, 1), (7, 1), false, jammed) && s.g.steps + 2 < maxSteps
    ensures Succeeds(maxSteps, s, WALK_RIGHT)
    ensures var t := NextOf(maxSteps, s, WALK_RIGHT);
            Runs(t, (3, 1), (5, 1), false, jammed) && t.g.steps == s.g.steps + 2
  {
    hide Succeeds, NextOf, PlacesOf;
    HandlePlaces();
    assert [Left, Left][1..] == [Left];
    assert Trail(LAYOUT, s.g, AgentB, (6, 1), [Left]) == Some((5, 1));
    WalkSucceeds(maxSteps, s, AgentB, HANDLE_RIGHT, [Left, Left]);
    SyncedNext(maxSteps, s, WALK_RIGHT);
  }

  lemma SyncedNext(maxSteps: int, s: EnvState, c: GridCall)
    requires Succeeds(maxSteps, s, c)
    ensures InSync(LAYOUT, NextOf(maxSteps, s, c).g, NextOf(maxSteps, s, c).cached)
  {
  }

  lemma EnterFirst(maxSteps: int, s: EnvState)
    requires Runs(s, (3, 1), (5, 1), true, false) && s.g.steps + 4 < maxSteps
    ensures Succeeds(maxSteps, s, ENTER_A)
    ensures var t := NextOf(maxSteps, s, ENTER_A);
            t.g.a in LAYOUT.goals && Runs(t, t.g.a, (5, 1), true, false) && t.g.steps <= s.g.steps + 4
  {
    hide Succeeds, NextOf, PlacesOf;
    HandlePlaces();
    GoalTrail(s.g);
    WalkSucceeds(maxSteps, s, AgentA, GOAL, [Right, Down, Down, Down]);
    SyncedNext(maxSteps, s, ENTER_A);
  }

  /** The second agent finds a goal cell beside the first one, whichever cell that took. */
  lemma EnterSecond(maxSteps: int, s: EnvState)
    requires s.g.a in LAYOUT.goals && Runs(s, s.g.a, (5, 1), true, false) && s.g.steps + 5 < maxSteps
    ensures Succeeds(maxSteps, s, ENTER_B)
    ensures var t := NextOf(maxSteps, s, ENTER_B);
            && t.g.a in LAYOUT.goals && t.g.b in LAYOUT.goals && !t.g.jammed
            && t.g.steps <= s.g.steps + 5
  {
    hide Succeeds, NextOf, PlacesOf;
    HandlePlaces();
    if s.g.a == (4, 4) {
      SideTrail(s.g);
      WalkSucceeds(maxSteps, s, AgentB, GOAL, [Left, Down, Down, Left, Down]);
    } else {
      StraightTrail(s.g);
      WalkSucceeds(maxSteps, s, AgentB, GOAL, [Left, Down, Down, Down]);
    }
  }

  lemma StraightTrail(g: GridState)
    requires g.b == (5, 1) && g.doorOpen && g.a in {(3, 4), (5, 4)}
    ensures Trail(LAYOUT, g, AgentB, (5, 1), [Left, Down, Down, Down]) == Some((4, 4))
  {
    assert [Left, Down, Down, Down][1..] == [Down, Down, Down] && [Down, Down, Down][1..] == [Down, Down]
           && [Down, Down][1..] == [Down];
    assert Trail(LAYOUT, g, AgentB, (4, 3), [Down]) == Some((4, 4));
    assert Trail(LAYOUT, g, AgentB, (4, 2), [Down, Down]) == Some((4, 4));
    assert Trail(LAYOUT, g, AgentB, (4, 1), [Down, Down, Down]) == Some((4, 4));
  }

  lemma SideTrail(g: GridState)
    requires g.b == (5, 1) && g.doorOpen && g.a == (4, 4)
    ensures Trail(LAYOUT, g, AgentB, (5, 1), [Left, Down, Down, Left, Down]) == Some((3, 4))
  {
    assert [Left, Down, Down, Left, Down][1..] == [Down, Down, Left, Down]
           && [Down, Down, Left, Down][1..] == [Down, Left, Down];
    assert [Down, Left, Down][1..] == [Left, Down] && [Left, Down][1..] == [Down];
    assert Trail(LAYOUT, g, AgentB, (3, 3), [Down]) == Some((3, 4));
    assert Trail(LAYOUT, g, AgentB, (4, 3), [Left, Down]) == Some((3, 4));
    assert Trail(LAYOUT, g, AgentB, (4, 2), [Down, Left, Down]) == Some((3, 4));
    assert Trail(LAYOUT, g, AgentB, (4, 1), [Down, Down, Left, Down]) == Some((3, 4));
  }

  // ---------------------------------------------------------------------------------------------
  // At the door
  // ---------------------------------------------------------------------------------------------

  /** What the executive sees of each state: handles held or goals reached, and the door. */
  lemma SeenAt(l: Layout, g: GridState, a: string, b: string)
    requires ValidLayout(l) && PlaceAt(PlacesOf(l), g.a) == a && PlaceAt(PlacesOf(l), g.b) == b
    ensures Project(Read(l, g)) == StateOf(a, b, g.doorOpen)
  {
    hide PlaceAt, PlaceOf;
    PlacesRead(l, g, AgentA);
    SameNames(l, g, g);
    PlaceNames(l, g);
  }

  lemma PlaceNames(l: Layout, g: GridState)
    ensures Project(Read(l, g)).places == PLACES
  {
    var s := Read(l, g);
    assert s.places[0] in s.places && s.places[1] in s.places && s.places[2] in s.places;
  }

  lemma BothAtHandles(s: EnvState, doorOpen: bool, jammed: bool)
    requires Runs(s, (3, 1), (5, 1), doorOpen, jammed)
    ensures Project(Read(LAYOUT, s.g)) == StateOf(HANDLE_LEFT, HANDLE_RIGHT, doorOpen)
  {
    hide PlacesOf, Read, Project;
    FrozenLayoutIsValid();
    AtHandle(LAYOUT, (3, 1));
    AtHandle(LAYOUT, (5, 1));
    SeenAt(LAYOUT, s.g, HANDLE_LEFT, HANDLE_RIGHT);
  }

  lemma DoorCallsApply(c: GridCall)
    requires c in {OPEN, SHAKE}
    ensures Applicable(StateOf(HANDLE_LEFT, HANDLE_RIGHT, false), c).ValidatedCall?
  {
    assert {HANDLE_LEFT, HANDLE_RIGHT} == HANDLES;
  }

  /** The pull at the jammed door: an honest failure, one step later, in the same world. */
  lemma PullFails(maxSteps: int, s: EnvState)
    requires Runs(s, (3, 1), (5, 1), false, true) && s.g.steps + 1 < maxSteps
    ensures var answer, t := AnswerIn(maxSteps, s, OPEN), NextOf(maxSteps, s, OPEN);
            && answer.Returned? && !answer.result.outcome.Success? && answer.result.call == OPEN
            && answer.result.primitiveSteps == 1
            && answer.result.pre == Read(LAYOUT, s.g) && answer.result.post == Read(LAYOUT, t.g)
            && Runs(t, (3, 1), (5, 1), false, true) && t.g.steps == s.g.steps + 1
  {
    hide PlacesOf, Project, Identities;
    FrozenLayoutIsValid();
    KnownIdentities(LAYOUT, s.g, OPEN);
    assert JointOf(PullNames(OPEN), Pull) == Joint(Pull, Pull);
  }

  lemma ShakeWorks(maxSteps: int, s: EnvState)
    requires Runs(s, (3, 1), (5, 1), false, true) && s.g.steps + 1 < maxSteps
    ensures Succeeds(maxSteps, s, SHAKE)
    ensures var t := NextOf(maxSteps, s, SHAKE); Runs(t, (3, 1), (5, 1), false, false) && t.g.steps == s.g.steps + 1
  {
    hide PlacesOf, Project, Identities;
    FrozenLayoutIsValid();
    KnownIdentities(LAYOUT, s.g, SHAKE);
    assert JointOf({SHAKE.agent}, Shake) == Joint(Shake, Noop);
  }

  lemma PullOpens(maxSteps: int, s: EnvState)
    requires Runs(s, (3, 1), (5, 1), false, false) && s.g.steps + 1 < maxSteps
    ensures Succeeds(maxSteps, s, OPEN)
    ensures var t := NextOf(maxSteps, s, OPEN); Runs(t, (3, 1), (5, 1), true, false) && t.g.steps == s.g.steps + 1
  {
    hide PlacesOf, Project, Identities;
    FrozenLayoutIsValid();
    KnownIdentities(LAYOUT, s.g, OPEN);
    assert JointOf(PullNames(OPEN), Pull) == Joint(Pull, Pull);
  }

  // ---------------------------------------------------------------------------------------------
  // A session from reset that leaves the cache behind
  // ---------------------------------------------------------------------------------------------

  /** From reset without a jam: both walks and the pull end one step before a limit of six. */
  lemma LimitIsReached() returns (asks: seq<Ask>)
    ensures |asks| == 3 && asks[0].call == WALK_LEFT && asks[1].call == WALK_RIGHT && asks[2].call == OPEN
    ensures Answered(LAYOUT, STEP_LIMIT, ResetState(LAYOUT, false), asks)
    ensures Session(LAYOUT, STEP_LIMIT, ResetState(LAYOUT, false), asks) ==
              EnvState(AT_THE_LIMIT, Some(Read(LAYOUT, AT_THE_LIMIT)))
  {
    hide Succeeds, EndOf, PlacesOf, RouterAnswers;
    var s0 := ResetState(LAYOUT, false);
    LeftWalk(STEP_LIMIT, s0, false);
    var s1 := NextOf(STEP_LIMIT, s0, WALK_LEFT);
    RightWalk(STEP_LIMIT, s1, false);
    var s2 := NextOf(STEP_LIMIT, s1, WALK_RIGHT);
    PullOpens(STEP_LIMIT, s2);
    asks := [AskOf(LAYOUT, s0, WALK_LEFT), AskOf(LAYOUT, s1, WALK_RIGHT), AskOf(LAYOUT, s2, OPEN)];
    SessionOfThree(STEP_LIMIT, s0, asks);
  }

  lemma SessionOfThree(maxSteps: int, s: EnvState, asks: seq<Ask>)
    requires |asks| == 3 && RouterAnswers(LAYOUT, s, asks[0])
    requires var s1 := GridSession.After(LAYOUT, maxSteps, s, asks[0]);
             RouterAnswers(LAYOUT, s1, asks[1])
             && RouterAnswers(LAYOUT, GridSession.After(LAYOUT, maxSteps, s1, asks[1]), asks[2])
    ensures Answered(LAYOUT, maxSteps, s, asks)
    ensures var s1 := GridSession.After(LAYOUT, maxSteps, s, asks[0]);
            var s2 := GridSession.After(LAYOUT, maxSteps, s1, asks[1]);
            Session(LAYOUT, maxSteps, s, asks) == GridSession.After(LAYOUT, maxSteps, s2, asks[2])
  {
    hide GridSession.After, RouterAnswers;
    assert Init(asks) == asks[..2] && Init(asks[..2]) == asks[..1] && Init(asks[..1]) == [];
    assert Session(LAYOUT, maxSteps, s, []) == s && Answered(LAYOUT, maxSteps, s, []);
    assert Answered(LAYOUT, maxSteps, s, asks[..1]) && Answered(LAYOUT, maxSteps, s, asks[..2]);
  }

  /**
    A whole session from reset after which a success misses the prediction: two walks, the pull, a walk to
    the goal that the step limit cuts short, and a call for the place where its agent already is.
  */
  lemma StaleSuccessFromReset() returns (asks: seq<Ask>)
    ensures |asks| == 4 && asks[0].call == WALK_LEFT && asks[1].call == WALK_RIGHT && asks[2].call == OPEN
    ensures asks[3].call == ENTER_A && Answered(LAYOUT, STEP_LIMIT, ResetState(LAYOUT, false), asks)
    ensures var s := Session(LAYOUT, STEP_LIMIT, ResetState(LAYOUT, false), asks);
            var late := Ask(WALK_RIGHT, Some([]));
            && RouterAnswers(LAYOUT, s, late) && SucceedsFrom(LAYOUT, STEP_LIMIT, s, late)
            && !Realised(LAYOUT, STEP_LIMIT, s, late)
            && Applicable(Project(s.cached.value), late.call).SymbolicallyInapplicable?
  {
    hide SucceedsFrom, Realised, Applicable, Project, RouterAnswers, Read, GridSession.After;
    var first := LimitIsReached();
    var s := EnvState(AT_THE_LIMIT, Some(Read(LAYOUT, AT_THE_LIMIT)));
    var walk := StaleSuccessMisses();
    var late := Ask(WALK_RIGHT, Some([]));
    assert Init([walk, late]) == [walk];
    SessionAppend(LAYOUT, STEP_LIMIT, ResetState(LAYOUT, false), first, [walk]);
    asks := first + [walk];
  }

  // ---------------------------------------------------------------------------------------------
  // What the planner puts first
  // ---------------------------------------------------------------------------------------------

  type GridPlanner = (SymState, GridWorld) -> PlannerResult<GridCall>

  ghost predicate PutsFirst(plan: GridPlanner, b: SymState, c: GridCall)
  {
    forall w :: plan(b, w).PlanFound? && plan(b, w).plan != [] && plan(b, w).plan[0] == c
  }

  lemma PlannerPutsFirst(plan: GridPlanner, budget: int, b: SymState, r: nat)
    requires PlansInModel(plan, budget) && TwoAgents(b) && Orderly(b) && ModelCost(b) > 0
    requires r < |Candidates()| && Helps(b, Candidates()[r]) && forall i :: 0 <= i < r ==> !Helps(b, Candidates()[i])
    ensures PutsFirst(plan, b, Candidates()[r])
  {
    hide TwoAgents, Orderly, ModelCost, Candidates, Helps;
    forall w
      ensures plan(b, w).PlanFound? && plan(b, w).plan != [] && plan(b, w).plan[0] == Candidates()[r]
    {
      ModelPlannerAnswers(b, budget, plan(b, w));
      HeadIsFirstHelp(b, plan(b, w).plan, r);
    }
  }

  /** The situations of this story and the call each puts first. */
  lemma FirstLeft(plan: GridPlanner, budget: int)
    requires PlansInModel(plan, budget)
    ensures PutsFirst(plan, StateOf(HALL, HALL, false), WALK_LEFT)
            && Applicable(StateOf(HALL, HALL, false), WALK_LEFT).ValidatedCall?
  {
    hide PlansInModel, PutsFirst;
    StartNeedsFiveCalls();
    WalkHelps(StateOf(HALL, HALL, false), Candidates()[1]);
    PlannerPutsFirst(plan, budget, StateOf(HALL, HALL, false), 1);
  }

  lemma ThenRight(plan: GridPlanner, budget: int)
    requires PlansInModel(plan, budget)
    ensures PutsFirst(plan, StateOf(HANDLE_LEFT, HALL, false), WALK_RIGHT)
            && Applicable(StateOf(HANDLE_LEFT, HALL, false), WALK_RIGHT).ValidatedCall?
  {
    hide PlansInModel, PutsFirst, Helps, ModelCost;
    RightIsFirstHelp();
    PlannerPutsFirst(plan, budget, StateOf(HANDLE_LEFT, HALL, false), 5);
  }

  lemma RightIsFirstHelp()
    ensures var sym := StateOf(HANDLE_LEFT, HALL, false);
            && TwoAgents(sym) && Orderly(sym) && ModelCost(sym) > 0
            && Helps(sym, Candidates()[5]) && forall i :: 0 <= i < 5 ==> !Helps(sym, Candidates()[i])
  {
    WalkHelps(StateOf(HANDLE_LEFT, HALL, false), Candidates()[5]);
    FirstAgentIsPlaced();
    hide Next, ModelCost;
    TakenByA(StateOf(HANDLE_LEFT, HALL, false), Candidates()[4]);
  }

  /** With one agent at its handle no walk of that agent helps, nor does the other's walk to the goal. */
  lemma FirstAgentIsPlaced()
    ensures forall i :: 0 <= i < 4 ==> !Helps(StateOf(HANDLE_LEFT, HALL, false), Candidates()[i])
  {
  }

  lemma TakenByA(sym: SymState, c: GridCall)
    requires TwoAgents(sym) && c.op == Goto && c.agent == "B" && c.target in HANDLES && c.target == sym.at["A"]
    ensures !Helps(sym, c)
  {
    assert Taken(sym, c);
  }

  lemma TakenByB(sym: SymState, c: GridCall)
    requires TwoAgents(sym) && c.op == Goto && c.agent == "A" && c.target in HANDLES && c.target == sym.at["B"]
    ensures !Helps(sym, c)
  {
    assert Taken(sym, c);
  }

  lemma ThenOpen(plan: GridPlanner, budget: int)
    requires PlansInModel(plan, budget)
    ensures PutsFirst(plan, StateOf(HANDLE_LEFT, HANDLE_RIGHT, false), OPEN)
            && Applicable(StateOf(HANDLE_LEFT, HANDLE_RIGHT, false), OPEN).ValidatedCall?
  {
    hide PlansInModel, PutsFirst;
    var sym := StateOf(HANDLE_LEFT, HANDLE_RIGHT, false);
    OpeningHelps(sym, OPEN);
    TakenByA(sym, Candidates()[4]);
    TakenByB(sym, Candidates()[2]);
    PlannerPutsFirst(plan, budget, sym, 6);
  }

  lemma ThenEnterA(plan: GridPlanner, budget: int)
    requires PlansInModel(plan, budget)
    ensures PutsFirst(plan, StateOf(HANDLE_LEFT, HANDLE_RIGHT, true), ENTER_A)
            && Applicable(StateOf(HANDLE_LEFT, HANDLE_RIGHT, true), ENTER_A).ValidatedCall?
  {
    hide PlansInModel, PutsFirst;
    var sym := StateOf(HANDLE_LEFT, HANDLE_RIGHT, true);
    WalkHelps(sym, Candidates()[0]);
    PlannerPutsFirst(plan, budget, sym, 0);
  }

  lemma ThenEnterB(plan: GridPlanner, budget: int)
    requires PlansInModel(plan, budget)
    ensures PutsFirst(plan, StateOf(GOAL, HANDLE_RIGHT, true), ENTER_B)
            && Applicable(StateOf(GOAL, HANDLE_RIGHT, true), ENTER_B).ValidatedCall?
  {
    hide PlansInModel, PutsFirst;
    var sym := StateOf(GOAL, HANDLE_RIGHT, true);
    WalkHelps(sym, Candidates()[3]);
    TakenByB(sym, Candidates()[2]);
    PlannerPutsFirst(plan, budget, sym, 3);
  }

  // ---------------------------------------------------------------------------------------------
  // Turns of the loop
  // ---------------------------------------------------------------------------------------------

  /** The domain's composition over its simulator, jammed at the start or not, with budgets and step limit to match. */
  ghost predicate IsGridRun(su: GridSetup, jammed: bool, maxSteps: int, nodeBudget: int)
  {
    && su == ComposeGrid(su.plan, GridOracle(LAYOUT, maxSteps, ResetState(LAYOUT, jammed)), su.config,
         su.policy, su.worldKey)
    && PlansInModel(su.plan, nodeBudget) && DigestsWorlds(su.worldKey)
    && FitsBudgets(su.config, jammed, maxSteps)
  }

  /** What a jam costs: as many failed pulls as the threshold, and the shake. */
  function ForTheJam(config: OrchestrationConfig, jammed: bool): nat
  {
    if jammed then config.failureThreshold + 1 else 0
  }

  lemma JamCosts(config: OrchestrationConfig)
    ensures ForTheJam(config, true) == config.failureThreshold + 1
  {
  }

  /** Five calls and at most fourteen steps, the last walk's charged after the last look at the budget. */
  predicate FitsBudgets(config: OrchestrationConfig, jammed: bool, maxSteps: int)
  {
    var extra := ForTheJam(config, jammed);
    config.executiveBudget >= 5 + extra && config.primitiveBudget > 9 + extra && maxSteps > 14 + extra
  }

  function CallsOf(log: GridLog): (calls: seq<GridCall>)
    ensures |calls| == |log|
  {
    seq(|log|, i requires 0 <= i < |log| => log[i].call)
  }

  /** The loop stands before state `s`, having made these attempts and charged them all. */
  ghost predicate At(jammed: bool, maxSteps: int, l: GridLoop, s: EnvState, calls: seq<GridCall>)
  {
    && StateAfter(LAYOUT, maxSteps, ResetState(LAYOUT, jammed), l.log) == s && InSync(LAYOUT, s.g, s.cached)
    && l.pending == [] && CallsOf(l.log) == calls
    && ExecutiveCharged(l) == |calls| && PrimitiveCharged(l) == s.g.steps
  }

  /** The call is the head, applicable and not exhausted, in a world that is not the goal. */
  ghost predicate IsNext(su: GridSetup, l: GridLoop, s: EnvState, c: GridCall)
  {
    var w := Read(LAYOUT, s.g);
    && PutsFirst(su.plan, Project(w), c) && Applicable(Project(w), c).ValidatedCall? && !IsSatisfiedBy(w)
    && HeadIsFresh(su, l, w, c)
  }

  lemma ExportsTheState(su: GridSetup, jammed: bool, maxSteps: int, nodeBudget: int, l: GridLoop, step: nat,
    s: EnvState, calls: seq<GridCall>)
    requires IsGridRun(su, jammed, maxSteps, nodeBudget) && At(jammed, maxSteps, l, s, calls)
    ensures su.env.exportState(step, l.log) == Read(LAYOUT, s.g)
    ensures su.sync(l.belief, Read(LAYOUT, s.g)) == Project(Read(LAYOUT, s.g))
    ensures forall c :: su.env.executeSkill(l.log, c) == AnswerIn(maxSteps, s, c)
  {
  }

  lemma ReturnedIsGrounded(maxSteps: int, s: EnvState, c: GridCall)
    requires InSync(LAYOUT, s.g, s.cached) && AnswerIn(maxSteps, s, c).Returned?
    ensures CallIdentities(c) <= Identities(Read(LAYOUT, s.g))
  {
  }

  lemma AtNext(jammed: bool, maxSteps: int, l: GridLoop, s: EnvState, calls: seq<GridCall>, next: GridLoop,
    e: Exchange<GridWorld, GridCall>)
    requires At(jammed, maxSteps, l, s, calls) && next.log == l.log + [e] && next.pending == []
    requires ExecutiveCharged(next) == ExecutiveCharged(l) + 1
    requires var t := NextOf(maxSteps, s, e.call); PrimitiveCharged(next) == t.g.steps && InSync(LAYOUT, t.g, t.cached)
    ensures At(jammed, maxSteps, next, NextOf(maxSteps, s, e.call), calls + [e.call])
  {
    StateAfterOne(LAYOUT, maxSteps, ResetState(LAYOUT, jammed), l.log, e);
    assert CallsOf(next.log) == calls + [e.call];
  }

  /** A head that succeeds: one turn, one step of the run, the next state. */
  lemma GoodTurn(su: GridSetup, jammed: bool, maxSteps: int, nodeBudget: int, l: GridLoop, step: nat, first: bool,
    zeroCharge: nat, s: EnvState, calls: seq<GridCall>, c: GridCall)
    requires IsGridRun(su, jammed, maxSteps, nodeBudget) && At(jammed, maxSteps, l, s, calls) && IsNext(su, l, s, c)
             && Succeeds(maxSteps, s, c)
    requires !OutOfBudget(su.config, l) && zeroCharge <= su.config.maxRejections
    ensures var t := OneTurn(su, l, step, first);
            && t.Continues? && At(jammed, maxSteps, t.state, NextOf(maxSteps, s, c), calls + [c])
            && t.state.failures == l.failures
            && ExecutiveCharged(l) <= su.config.executiveBudget
            && ExecutiveCharged(t.state) <= su.config.executiveBudget
            && RunFrom(su, l, step, first, zeroCharge) == RunFrom(su, t.state, step + 1, t.first, 0)
  {
    hide OneTurn, RunFrom, Read, Project, Applicable, IsSatisfiedBy, ExecuteEnd, At, IsGridRun, PlansInModel;
    ExportsTheState(su, jammed, maxSteps, nodeBudget, l, step, s, calls);
    AtIsSynced(jammed, maxSteps, l, s, calls);
    ReturnedIsGrounded(maxSteps, s, c);
    ComposedOf(su, jammed, maxSteps, nodeBudget);
    var w := Read(LAYOUT, s.g);
    var plan, r := su.plan(Project(w), w).plan, AnswerIn(maxSteps, s, c).result;
    UndisturbedTurn(su, l, step, first, plan, r);
    AtNext(jammed, maxSteps, l, s, calls, OneTurn(su, l, step, first).state, Exchange(c, Returned(r)));
    ChargedTurn(su, l, step, first, zeroCharge);
  }

  lemma AtIsSynced(jammed: bool, maxSteps: int, l: GridLoop, s: EnvState, calls: seq<GridCall>)
    requires At(jammed, maxSteps, l, s, calls)
    ensures InSync(LAYOUT, s.g, s.cached) && l.pending == [] && CallsOf(l.log) == calls
    ensures PrimitiveCharged(l) == s.g.steps && ExecutiveCharged(l) == |calls|
  {
  }

  lemma ComposedOf(su: GridSetup, jammed: bool, maxSteps: int, nodeBudget: int)
    requires IsGridRun(su, jammed, maxSteps, nodeBudget)
    ensures su.advisory.None? && PlansInModel(su.plan, nodeBudget) && DigestsWorlds(su.worldKey)
    ensures forall w :: su.satisfied(w) == IsSatisfiedBy(w)
    ensures forall w, c :: su.grounded(w, c) == (CallIdentities(c) <= Identities(w))
    ensures forall b, c :: su.evaluate(b, c) == Applicable(b, c)
    ensures forall b, r :: su.monitor(b, r) == Reported(GridReports(b, r))
    ensures forall b, w :: su.sync(b, w) == Project(w)
    ensures su.recovery.Some? && forall report :: su.recovery.value(report) == Recover(report)
  {
  }

  // ---------------------------------------------------------------------------------------------
  // The story of the jam
  // ---------------------------------------------------------------------------------------------

  function PullKey(su: GridSetup, s: EnvState): FailureKey<GridCall>
  {
    (su.worldKey(Read(LAYOUT, s.g)), OPEN)
  }

  function Pulls(n: nat): seq<GridCall>
  {
    seq(n, i requires 0 <= i < n => OPEN)
  }

  /** Both walks, and that many pulls. */
  function AtTheHandles(pulls: nat): (calls: seq<GridCall>)
    ensures |calls| == pulls + 2
  {
    [WALK_LEFT, WALK_RIGHT] + Pulls(pulls)
  }

  /** Before the jammed door after `k` failed pulls: only the pull has failed, and its last report says so. */
  ghost predicate AtTheJam(su: GridSetup, maxSteps: int, l: GridLoop, s: EnvState, k: nat)
  {
    && At(true, maxSteps, l, s, AtTheHandles(k)) && Runs(s, (3, 1), (5, 1), false, true) && s.g.steps <= 4 + k
    && l.failures == (if k == 0 then map[] else map[PullKey(su, s) := k])
    && (k > 0 ==> l.reports != [] && Last(l.reports) == Report(OPEN, true))
  }

  lemma JamIsReached(su: GridSetup, maxSteps: int, l: GridLoop, s: EnvState)
    requires At(true, maxSteps, l, s, AtTheHandles(0)) && Runs(s, (3, 1), (5, 1), false, true) && s.g.steps == 4
    requires l.failures == map[]
    ensures AtTheJam(su, maxSteps, l, s, 0)
  {
    hide At, Runs;
  }

  lemma JamIsAt(su: GridSetup, maxSteps: int, l: GridLoop, s: EnvState, k: nat)
    requires AtTheJam(su, maxSteps, l, s, k)
    ensures At(true, maxSteps, l, s, AtTheHandles(k)) && s.g.steps <= 4 + k
  {
    hide At, Runs, PullKey;
  }

  lemma WithinBudget(su: GridSetup, jammed: bool, maxSteps: int, nodeBudget: int, l: GridLoop, s: EnvState,
    calls: seq<GridCall>)
    requires IsGridRun(su, jammed, maxSteps, nodeBudget) && At(jammed, maxSteps, l, s, calls)
    requires |calls| <= 4 + ForTheJam(su.config, jammed) && s.g.steps <= 9 + ForTheJam(su.config, jammed)
    ensures !OutOfBudget(su.config, l) && ExecutiveCharged(l) < su.config.executiveBudget && s.g.steps + 5 < maxSteps
  {
  }

  lemma NotAtGoal(g: GridState, a: string, b: string)
    requires Project(Read(LAYOUT, g)) == StateOf(a, b, g.doorOpen) && (a != GOAL || b != GOAL)
    ensures !IsSatisfiedBy(Read(LAYOUT, g))
  {
    hide Project;
    GoalIsTheTask(Read(LAYOUT, g));
    var sym := StateOf(a, b, g.doorOpen);
    assert "A" in sym.at && "B" in sym.at;
  }

  lemma FirstTurn(su: GridSetup, jammed: bool, maxSteps: int, nodeBudget: int, b: SymState)
    requires IsGridRun(su, jammed, maxSteps, nodeBudget)
    ensures var l: GridLoop := Fresh(b);
            var s := ResetState(LAYOUT, jammed);
            && At(jammed, maxSteps, l, s, []) && IsNext(su, l, s, WALK_LEFT) && Succeeds(maxSteps, s, WALK_LEFT)
            && !OutOfBudget(su.config, l)
            && Runs(NextOf(maxSteps, s, WALK_LEFT), (3, 1), (7, 1), false, jammed)
            && NextOf(maxSteps, s, WALK_LEFT).g.steps == 2
  {
    hide PlacesOf, Project, PlaceOf, PutsFirst, NextOf, Succeeds, Applicable, IsSatisfiedBy;
    var l: GridLoop := Fresh(b);
    var s := ResetState(LAYOUT, jammed);
    assert CallsOf(l.log) == [];
    FrozenLayoutIsValid();
    LeftWalk(maxSteps, s, jammed);
    StartPlaces();
    SeenAt(LAYOUT, s.g, HALL, HALL);
    NotAtGoal(s.g, HALL, HALL);
    FirstLeft(su.plan, nodeBudget);
  }

  lemma StartPlaces()
    ensures PlaceAt(PlacesOf(LAYOUT), (1, 1)) == HALL && PlaceAt(PlacesOf(LAYOUT), (7, 1)) == HALL
    ensures PlaceAt(PlacesOf(LAYOUT), (3, 1)) == HANDLE_LEFT && PlaceAt(PlacesOf(LAYOUT), (5, 1)) == HANDLE_RIGHT
    ensures forall c :: c in LAYOUT.goals ==> PlaceAt(PlacesOf(LAYOUT), c) == GOAL
  {
    hide PlacesOf, PlaceAt;
    FrozenLayoutIsValid();
    NoPlace((1, 1));
    NoPlace((7, 1));
    AtHandle(LAYOUT, (3, 1));
    AtHandle(LAYOUT, (5, 1));
    HandlePlaces();
    forall c | c in LAYOUT.goals
      ensures PlaceAt(PlacesOf(LAYOUT), c) == GOAL
    {
      PlacesAreDisjoint(LAYOUT, GOAL, c);
    }
  }

  lemma NoPlace(c: Cell)
    requires c in {(1, 1), (7, 1)}
    ensures PlaceAt(PlacesOf(LAYOUT), c) == HALL
  {
    var places := PlacesOf(LAYOUT);
    assert places[1..] == [places[1], places[2]] && places[1..][1..] == [places[2]] && [places[2]][1..] == [];
    assert PlaceAt([places[2]], c) == HALL;
    assert PlaceAt(places[1..], c) == HALL;
  }

  lemma SecondTurn(su: GridSetup, jammed: bool, maxSteps: int, nodeBudget: int, l: GridLoop, s: EnvState)
    requires IsGridRun(su, jammed, maxSteps, nodeBudget) && At(jammed, maxSteps, l, s, [WALK_LEFT])
             && l.failures == map[]
    requires Runs(s, (3, 1), (7, 1), false, jammed) && s.g.steps == 2
    ensures IsNext(su, l, s, WALK_RIGHT) && Succeeds(maxSteps, s, WALK_RIGHT) && !OutOfBudget(su.config, l)
    ensures var t := NextOf(maxSteps, s, WALK_RIGHT); Runs(t, (3, 1), (5, 1), false, jammed) && t.g.steps == 4
  {
    hide PlacesOf, Project, PlaceOf, PutsFirst, NextOf, Succeeds, Applicable, IsSatisfiedBy;
    FrozenLayoutIsValid();
    RightWalk(maxSteps, s, jammed);
    StartPlaces();
    SeenAt(LAYOUT, s.g, HANDLE_LEFT, HALL);
    NotAtGoal(s.g, HANDLE_LEFT, HALL);
    ThenRight(su.plan, nodeBudget);
  }

  /** From the start both agents walk to the handles, in two steps of the run. */
  lemma ToTheHandles(su: GridSetup, jammed: bool, maxSteps: int, nodeBudget: int, b: SymState)
    returns (l: GridLoop, s: EnvState, first: bool)
    requires IsGridRun(su, jammed, maxSteps, nodeBudget)
    ensures At(jammed, maxSteps, l, s, AtTheHandles(0)) && Runs(s, (3, 1), (5, 1), false, jammed) && s.g.steps == 4
    ensures l.failures == map[] && ExecutiveCharged(l) <= su.config.executiveBudget
    ensures Run(su, b) == RunFrom(su, l, 2, first, 0)
  {
    hide IsGridRun, At, IsNext, Succeeds, NextOf, OneTurn, RunFrom, OutOfBudget;
    var l0: GridLoop := Fresh(b);
    var s0 := ResetState(LAYOUT, jammed);
    FirstTurn(su, jammed, maxSteps, nodeBudget, b);
    GoodTurn(su, jammed, maxSteps, nodeBudget, l0, 0, true, 0, s0, [], WALK_LEFT);
    var t1 := OneTurn(su, l0, 0, true);
    var s1 := NextOf(maxSteps, s0, WALK_LEFT);
    assert [] + [WALK_LEFT] == [WALK_LEFT];
    SecondTurn(su, jammed, maxSteps, nodeBudget, t1.state, s1);
    GoodTurn(su, jammed, maxSteps, nodeBudget, t1.state, 1, t1.first, 0, s1, [WALK_LEFT], WALK_RIGHT);
    var t2 := OneTurn(su, t1.state, 1, t1.first);
    l, s, first := t2.state, NextOf(maxSteps, s1, WALK_RIGHT), t2.first;
    assert [WALK_LEFT] + [WALK_RIGHT] == AtTheHandles(0);
  }

  /** One more failed pull. */
  lemma PullTurn(su: GridSetup, maxSteps: int, nodeBudget: int, l: GridLoop, step: nat, first: bool, s: EnvState,
    k: nat)
    requires IsGridRun(su, true, maxSteps, nodeBudget) && AtTheJam(su, maxSteps, l, s, k)
             && k < su.config.failureThreshold
    ensures var t := OneTurn(su, l, step, first);
            && t.Continues? && AtTheJam(su, maxSteps, t.state, NextOf(maxSteps, s, OPEN), k + 1)
            && ExecutiveCharged(l) <= su.config.executiveBudget
            && ExecutiveCharged(t.state) <= su.config.executiveBudget
            && RunFrom(su, l, step, first, 0) == RunFrom(su, t.state, step + 1, t.first, 0)
  {
    hide OneTurn, RunFrom, Project, Applicable, IsSatisfiedBy, IsGridRun, PlansInModel, OutOfBudget, NextOf,
      AnswerIn, At, Read;
    var calls := AtTheHandles(k);
    WithinBudget(su, true, maxSteps, nodeBudget, l, s, calls);
    AtIsSynced(true, maxSteps, l, s, calls);
    ExportsTheState(su, true, maxSteps, nodeBudget, l, step, s, calls);
    ComposedOf(su, true, maxSteps, nodeBudget);
    PullFails(maxSteps, s);
    ReturnedIsGrounded(maxSteps, s, OPEN);
    BothAtHandles(s, false, true);
    NotAtGoal(s.g, HANDLE_LEFT, HANDLE_RIGHT);
    ThenOpen(su.plan, nodeBudget);
    var w := Read(LAYOUT, s.g);
    var plan, r := su.plan(Project(w), w).plan, AnswerIn(maxSteps, s, OPEN).result;
    FailingTurn(su, l, step, first, plan, r);
    var t := OneTurn(su, l, step, first);
    AtNext(true, maxSteps, l, s, calls, t.state, Exchange(OPEN, Returned(r)));
    ChargedTurn(su, l, step, first, 0);
    assert calls + [OPEN] == AtTheHandles(k + 1);
    SameWorldAfterPull(su, s, NextOf(maxSteps, s, OPEN));
    assert GridReports(Project(w), r) == [Report(OPEN, true)];
  }

  lemma SameWorldAfterPull(su: GridSetup, s: EnvState, t: EnvState)
    requires DigestsWorlds(su.worldKey) && Runs(s, (3, 1), (5, 1), false, true) && Runs(t, (3, 1), (5, 1), false, true)
    ensures PullKey(su, s) == PullKey(su, t)
  {
  }

  /** The head is pulled until the threshold, and no further. */
  lemma {:induction false} PullsToTheThreshold(su: GridSetup, maxSteps: int, nodeBudget: int, l: GridLoop, step: nat,
    first: bool, s: EnvState, k: nat) returns (l': GridLoop, s': EnvState, first': bool)
    requires IsGridRun(su, true, maxSteps, nodeBudget) && AtTheJam(su, maxSteps, l, s, k)
             && k <= su.config.failureThreshold
    requires ExecutiveCharged(l) <= su.config.executiveBudget
    ensures AtTheJam(su, maxSteps, l', s', su.config.failureThreshold)
            && ExecutiveCharged(l') <= su.config.executiveBudget
    ensures RunFrom(su, l, step, first, 0) == RunFrom(su, l', step + su.config.failureThreshold - k, first', 0)
    decreases su.config.failureThreshold - k
  {
    hide *;
    if k == su.config.failureThreshold {
      l', s', first' := l, s, first;
    } else {
      PullTurn(su, maxSteps, nodeBudget, l, step, first, s, k);
      var t := OneTurn(su, l, step, first);
      l', s', first' := PullsToTheThreshold(su, maxSteps, nodeBudget, t.state, step + 1, t.first,
        NextOf(maxSteps, s, OPEN), k + 1);
    }
  }

  /** At the threshold the pull is exhausted, whatever the policy makes of it. */
  lemma PullIsExhausted(su: GridSetup, maxSteps: int, nodeBudget: int, l: GridLoop, step: nat, s: EnvState)
    requires IsGridRun(su, true, maxSteps, nodeBudget) && AtTheJam(su, maxSteps, l, s, su.config.failureThreshold)
    ensures !OutOfBudget(su.config, l) && !su.satisfied(su.env.exportState(step, l.log))
    ensures HeadIsExhausted(su, Synced(su, l, step), su.env.exportState(step, l.log), OPEN)
  {
    hide Project, Applicable, IsSatisfiedBy, IsGridRun, PlansInModel, OutOfBudget, At, Read;
    var calls := AtTheHandles(su.config.failureThreshold);
    WithinBudget(su, true, maxSteps, nodeBudget, l, s, calls);
    AtIsSynced(true, maxSteps, l, s, calls);
    ExportsTheState(su, true, maxSteps, nodeBudget, l, step, s, calls);
    ComposedOf(su, true, maxSteps, nodeBudget);
    BothAtHandles(s, false, true);
    NotAtGoal(s.g, HANDLE_LEFT, HANDLE_RIGHT);
    ThenOpen(su.plan, nodeBudget);
  }

  /**
    The hidden jam under SYMBOLIC_PRIMARY: two walks, exactly the threshold of pulls that all fail, and
    the run halts on repeated failure.
  */
  lemma JamHaltsSymbolicPrimary(su: GridSetup, maxSteps: int, nodeBudget: int, b: SymState)
    requires IsGridRun(su, true, maxSteps, nodeBudget) && su.policy.SymbolicPrimary?
    ensures var e := Run(su, b);
            && e.outcome == HaltedRepeatedFailure && e.cycles == su.config.failureThreshold + 3
            && CallsOf(e.state.log) == AtTheHandles(su.config.failureThreshold)
  {
    hide *;
    var l, s, first := ToTheHandles(su, true, maxSteps, nodeBudget, b);
    JamIsReached(su, maxSteps, l, s);
    var l', s', first' := PullsToTheThreshold(su, maxSteps, nodeBudget, l, 2, first, s, 0);
    var step := 2 + su.config.failureThreshold;
    PullIsExhausted(su, maxSteps, nodeBudget, l', step, s');
    JamIsAt(su, maxSteps, l', s', su.config.failureThreshold);
    AtIsSynced(true, maxSteps, l', s', AtTheHandles(su.config.failureThreshold));
    ComposedOf(su, true, maxSteps, nodeBudget);
    ExhaustedHeadHalts(su, l', step, first', OPEN);
    StoppedTurn(su, l', step, first', 0);
  }

  // ---------------------------------------------------------------------------------------------
  // The way out
  // ---------------------------------------------------------------------------------------------

  /** The door is free, and whatever has failed has failed before a jammed one. */
  ghost predicate Unhindered(su: GridSetup, jammed: bool, maxSteps: int, l: GridLoop, s: EnvState,
    calls: seq<GridCall>)
  {
    && At(jammed, maxSteps, l, s, calls) && !s.g.jammed
    && forall key :: key in l.failures ==> exists jam: EnvState :: jam.g.jammed && key == PullKey(su, jam)
  }

  lemma NothingIsExhausted(su: GridSetup, jammed: bool, maxSteps: int, l: GridLoop, s: EnvState, calls: seq<GridCall>,
    c: GridCall)
    requires Unhindered(su, jammed, maxSteps, l, s, calls) && DigestsWorlds(su.worldKey)
             && su.config.failureThreshold > 0
    ensures HeadIsFresh(su, l, Read(LAYOUT, s.g), c)
  {
  }

  /** The exhausted pull asks for advice, and the advised shake clears the jam in the same turn. */
  lemma ShakeTurn(su: GridSetup, maxSteps: int, nodeBudget: int, l: GridLoop, step: nat, first: bool, s: EnvState)
    requires IsGridRun(su, true, maxSteps, nodeBudget) && su.policy.AdvisoryTwoTrack?
    requires AtTheJam(su, maxSteps, l, s, su.config.failureThreshold)
    ensures var t := OneTurn(su, l, step, first);
            var u := NextOf(maxSteps, s, SHAKE);
            && t.Continues? && Runs(u, (3, 1), (5, 1), false, false) && u.g.steps == s.g.steps + 1
            && Unhindered(su, true, maxSteps, t.state, u, AtTheHandles(su.config.failureThreshold) + [SHAKE])
            && ExecutiveCharged(l) <= su.config.executiveBudget
            && ExecutiveCharged(t.state) <= su.config.executiveBudget
            && RunFrom(su, l, step, first, 0) == RunFrom(su, t.state, step + 1, t.first, 0)
  {
    hide OneTurn, RunFrom, Project, Applicable, IsSatisfiedBy, IsGridRun, PlansInModel, OutOfBudget, NextOf,
      AnswerIn, At, Read, HeadIsExhausted;
    var calls := AtTheHandles(su.config.failureThreshold);
    PullIsExhausted(su, maxSteps, nodeBudget, l, step, s);
    WithinBudget(su, true, maxSteps, nodeBudget, l, s, calls);
    AtIsSynced(true, maxSteps, l, s, calls);
    ExportsTheState(su, true, maxSteps, nodeBudget, l, step, s, calls);
    ComposedOf(su, true, maxSteps, nodeBudget);
    ShakeWorks(maxSteps, s);
    ReturnedIsGrounded(maxSteps, s, SHAKE);
    BothAtHandles(s, false, true);
    DoorCallsApply(SHAKE);
    var r := AnswerIn(maxSteps, s, SHAKE).result;
    EscapeTurn(su, l, step, first, OPEN, SHAKE, r);
    var t := OneTurn(su, l, step, first);
    AtNext(true, maxSteps, l, s, calls, t.state, Exchange(SHAKE, Returned(r)));
    ChargedTurn(su, l, step, first, 0);
  }

  /** With the jam gone the pull opens the door. */
  lemma OpenTurn(su: GridSetup, jammed: bool, maxSteps: int, nodeBudget: int, l: GridLoop, s: EnvState,
    calls: seq<GridCall>)
    requires IsGridRun(su, jammed, maxSteps, nodeBudget) && Unhindered(su, jammed, maxSteps, l, s, calls)
    requires Runs(s, (3, 1), (5, 1), false, false) && s.g.steps <= 4 + ForTheJam(su.config, jammed)
    ensures IsNext(su, l, s, OPEN) && Succeeds(maxSteps, s, OPEN)
    ensures var t := NextOf(maxSteps, s, OPEN);
            && Runs(t, (3, 1), (5, 1), true, false) && !t.g.jammed
            && t.g.steps == s.g.steps + 1
  {
    hide PlacesOf, Project, PlaceOf, PutsFirst, NextOf, Succeeds, Applicable, IsSatisfiedBy, HeadIsFresh, Read, At;
    PullOpens(maxSteps, s);
    BothAtHandles(s, false, false);
    NotAtGoal(s.g, HANDLE_LEFT, HANDLE_RIGHT);
    ThenOpen(su.plan, nodeBudget);
    NothingIsExhausted(su, jammed, maxSteps, l, s, calls, OPEN);
  }

  /** Through the open door the first agent enters. */
  lemma EnterFirstTurn(su: GridSetup, jammed: bool, maxSteps: int, nodeBudget: int, l: GridLoop, s: EnvState,
    calls: seq<GridCall>)
    requires IsGridRun(su, jammed, maxSteps, nodeBudget) && Unhindered(su, jammed, maxSteps, l, s, calls)
    requires Runs(s, (3, 1), (5, 1), true, false) && s.g.steps <= 5 + ForTheJam(su.config, jammed)
    ensures IsNext(su, l, s, ENTER_A) && Succeeds(maxSteps, s, ENTER_A)
    ensures var t := NextOf(maxSteps, s, ENTER_A);
            && t.g.a in LAYOUT.goals && Runs(t, t.g.a, (5, 1), true, false) && !t.g.jammed
            && t.g.steps <= s.g.steps + 4
  {
    hide PlacesOf, Project, PlaceOf, PutsFirst, NextOf, Succeeds, Applicable, IsSatisfiedBy, HeadIsFresh, Read, At;
    EnterFirst(maxSteps, s);
    BothAtHandles(s, true, false);
    NotAtGoal(s.g, HANDLE_LEFT, HANDLE_RIGHT);
    ThenEnterA(su.plan, nodeBudget);
    NothingIsExhausted(su, jammed, maxSteps, l, s, calls, ENTER_A);
  }

  /** And the second one, beside it. */
  lemma EnterSecondTurn(su: GridSetup, jammed: bool, maxSteps: int, nodeBudget: int, l: GridLoop, s: EnvState,
    calls: seq<GridCall>)
    requires IsGridRun(su, jammed, maxSteps, nodeBudget) && Unhindered(su, jammed, maxSteps, l, s, calls)
    requires s.g.a in LAYOUT.goals && Runs(s, s.g.a, (5, 1), true, false)
             && s.g.steps <= 9 + ForTheJam(su.config, jammed)
    ensures IsNext(su, l, s, ENTER_B) && Succeeds(maxSteps, s, ENTER_B)
    ensures var t := NextOf(maxSteps, s, ENTER_B); t.g.a in LAYOUT.goals && t.g.b in LAYOUT.goals && !t.g.jammed
  {
    hide PlacesOf, Project, PlaceOf, PutsFirst, NextOf, Succeeds, Applicable, IsSatisfiedBy, HeadIsFresh, Read, At;
    EnterSecond(maxSteps, s);
    StartPlaces();
    FrozenLayoutIsValid();
    SeenAt(LAYOUT, s.g, GOAL, HANDLE_RIGHT);
    NotAtGoal(s.g, GOAL, HANDLE_RIGHT);
    ThenEnterB(su.plan, nodeBudget);
    NothingIsExhausted(su, jammed, maxSteps, l, s, calls, ENTER_B);
  }

  /** With both agents on goal cells the next turn judges the goal reached. */
  lemma ArrivedTurn(su: GridSetup, jammed: bool, maxSteps: int, nodeBudget: int, l: GridLoop, step: nat, first: bool,
    s: EnvState, calls: seq<GridCall>)
    requires IsGridRun(su, jammed, maxSteps, nodeBudget) && At(jammed, maxSteps, l, s, calls) && s.g.a in LAYOUT.goals
             && s.g.b in LAYOUT.goals
    ensures var t := OneTurn(su, l, step, first);
            t.Stopped? && t.outcome == GoalReached && !t.began && t.state.log == l.log
  {
    hide IsGridRun, At, Cycle, PlaceOf, Project, PlacesOf;
    ExportsTheState(su, jammed, maxSteps, nodeBudget, l, step, s, calls);
    ComposedOf(su, jammed, maxSteps, nodeBudget);
    StartPlaces();
    FrozenLayoutIsValid();
    SeenAt(LAYOUT, s.g, GOAL, GOAL);
    GoalIsTheTask(Read(LAYOUT, s.g));
    assert "A" in StateOf(GOAL, GOAL, s.g.doorOpen).at;
  }

  lemma UnhinderedIsAt(su: GridSetup, jammed: bool, maxSteps: int, l: GridLoop, s: EnvState, calls: seq<GridCall>)
    requires Unhindered(su, jammed, maxSteps, l, s, calls)
    ensures At(jammed, maxSteps, l, s, calls)
  {
    hide At, PullKey;
  }

  lemma KeepsUnhindered(su: GridSetup, jammed: bool, maxSteps: int, l: GridLoop, s: EnvState, calls: seq<GridCall>,
    next: GridLoop, t: EnvState, made: seq<GridCall>)
    requires Unhindered(su, jammed, maxSteps, l, s, calls)
    requires At(jammed, maxSteps, next, t, made) && next.failures == l.failures && !t.g.jammed
    ensures Unhindered(su, jammed, maxSteps, next, t, made)
  {
    hide At, PullKey;
  }

  /** A good turn after the jam leaves the run after the jam. */
  lemma StaysUnhindered(su: GridSetup, jammed: bool, maxSteps: int, nodeBudget: int, l: GridLoop, step: nat,
    first: bool, s: EnvState, calls: seq<GridCall>, c: GridCall)
    requires IsGridRun(su, jammed, maxSteps, nodeBudget) && Unhindered(su, jammed, maxSteps, l, s, calls)
    requires IsNext(su, l, s, c) && Succeeds(maxSteps, s, c) && !NextOf(maxSteps, s, c).g.jammed
    requires |calls| <= 4 + ForTheJam(su.config, jammed) && s.g.steps <= 9 + ForTheJam(su.config, jammed)
    ensures var t := OneTurn(su, l, step, first);
            && t.Continues? && Unhindered(su, jammed, maxSteps, t.state, NextOf(maxSteps, s, c), calls + [c])
            && ExecutiveCharged(l) <= su.config.executiveBudget
            && ExecutiveCharged(t.state) <= su.config.executiveBudget
            && RunFrom(su, l, step, first, 0) == RunFrom(su, t.state, step + 1, t.first, 0)
  {
    hide *;
    UnhinderedIsAt(su, jammed, maxSteps, l, s, calls);
    WithinBudget(su, jammed, maxSteps, nodeBudget, l, s, calls);
    ComposedOf(su, jammed, maxSteps, nodeBudget);
    GoodTurn(su, jammed, maxSteps, nodeBudget, l, step, first, 0, s, calls, c);
    KeepsUnhindered(su, jammed, maxSteps, l, s, calls, OneTurn(su, l, step, first).state,
      NextOf(maxSteps, s, c), calls + [c]);
  }

  /** From the unjammed door to the goal in three more steps of the run. */
  lemma ThroughTheDoor(su: GridSetup, jammed: bool, maxSteps: int, nodeBudget: int, l: GridLoop, step: nat, first: bool,
    s: EnvState, calls: seq<GridCall>)
    requires IsGridRun(su, jammed, maxSteps, nodeBudget) && Unhindered(su, jammed, maxSteps, l, s, calls)
    requires Runs(s, (3, 1), (5, 1), false, false) && s.g.steps <= 4 + ForTheJam(su.config, jammed)
    requires |calls| <= 2 + ForTheJam(su.config, jammed) && ExecutiveCharged(l) <= su.config.executiveBudget
    ensures var e := RunFrom(su, l, step, first, 0);
            e.outcome == GoalReached && e.cycles == step + 3 && CallsOf(e.state.log) == calls + [OPEN, ENTER_A, ENTER_B]
  {
    hide *;
    OpenTurn(su, jammed, maxSteps, nodeBudget, l, s, calls);
    StaysUnhindered(su, jammed, maxSteps, nodeBudget, l, step, first, s, calls, OPEN);
    var t1, s1 := OneTurn(su, l, step, first), NextOf(maxSteps, s, OPEN);
    EnterFirstTurn(su, jammed, maxSteps, nodeBudget, t1.state, s1, calls + [OPEN]);
    StaysUnhindered(su, jammed, maxSteps, nodeBudget, t1.state, step + 1, t1.first, s1, calls + [OPEN], ENTER_A);
    var t2, s2 := OneTurn(su, t1.state, step + 1, t1.first), NextOf(maxSteps, s1, ENTER_A);
    EnterSecondTurn(su, jammed, maxSteps, nodeBudget, t2.state, s2, calls + [OPEN] + [ENTER_A]);
    StaysUnhindered(su, jammed, maxSteps, nodeBudget, t2.state, step + 2, t2.first, s2,
      calls + [OPEN] + [ENTER_A], ENTER_B);
    var t3, s3 := OneTurn(su, t2.state, step + 2, t2.first), NextOf(maxSteps, s2, ENTER_B);
    var made := calls + [OPEN] + [ENTER_A] + [ENTER_B];
    assert made == calls + [OPEN, ENTER_A, ENTER_B];
    UnhinderedIsAt(su, jammed, maxSteps, t3.state, s3, made);
    ArrivedTurn(su, jammed, maxSteps, nodeBudget, t3.state, step + 3, t3.first, s3, made);
    StoppedTurn(su, t3.state, step + 3, t3.first, 0);
    AtIsSynced(jammed, maxSteps, t3.state, s3, made);
  }

  /**
    The hidden jam under ADVISORY_TWO_TRACK, from the same start: after the threshold of failed pulls the
    pull asks for advice, the shake is enacted in its place, and the run goes on to the goal. Every call
    attempted is named here; there are five more of them than failed pulls, and the shake.
  */
  lemma AdviceOvercomesJam(su: GridSetup, maxSteps: int, nodeBudget: int, b: SymState)
    requires IsGridRun(su, true, maxSteps, nodeBudget) && su.policy.AdvisoryTwoTrack?
    ensures var e := Run(su, b);
            && e.outcome == GoalReached && e.cycles == su.config.failureThreshold + 6
            && CallsOf(e.state.log) == AtTheHandles(su.config.failureThreshold) + [SHAKE, OPEN, ENTER_A, ENTER_B]
  {
    hide *;
    var l, s, first := ToTheHandles(su, true, maxSteps, nodeBudget, b);
    JamIsReached(su, maxSteps, l, s);
    var l', s', first' := PullsToTheThreshold(su, maxSteps, nodeBudget, l, 2, first, s, 0);
    var threshold := su.config.failureThreshold;
    JamCosts(su.config);
    ShakeTurn(su, maxSteps, nodeBudget, l', 2 + threshold, first', s');
    JamIsAt(su, maxSteps, l', s', threshold);
    AtIsSynced(true, maxSteps, l', s', AtTheHandles(threshold));
    var t, s1 := OneTurn(su, l', 2 + threshold, first'), NextOf(maxSteps, s', SHAKE);
    ThroughTheDoor(su, true, maxSteps, nodeBudget, t.state, 3 + threshold, t.first, s1,
      AtTheHandles(threshold) + [SHAKE]);
    assert AtTheHandles(threshold) + [SHAKE] + [OPEN, ENTER_A, ENTER_B] ==
      AtTheHandles(threshold) + [SHAKE, OPEN, ENTER_A, ENTER_B];
  }

  /** Without a jam either policy reaches the goal in exactly the five calls the model plans. */
  lemma UnjammedRunArrives(su: GridSetup, maxSteps: int, nodeBudget: int, b: SymState)
    requires IsGridRun(su, false, maxSteps, nodeBudget)
    ensures var e := Run(su, b);
            && e.outcome == GoalReached && e.cycles == 5
            && CallsOf(e.state.log) == [WALK_LEFT, WALK_RIGHT, OPEN, ENTER_A, ENTER_B]
  {
    hide IsGridRun, OneTurn, RunFrom, OutOfBudget, Runs, At;
    var l, s, first := ToTheHandles(su, false, maxSteps, nodeBudget, b);
    UnhinderedAtTheHandles(su, maxSteps, l, s);
    ThroughTheDoor(su, false, maxSteps, nodeBudget, l, 2, first, s, AtTheHandles(0));
    assert AtTheHandles(0) + [OPEN, ENTER_A, ENTER_B] == [WALK_LEFT, WALK_RIGHT, OPEN, ENTER_A, ENTER_B];
  }

  lemma UnhinderedAtTheHandles(su: GridSetup, maxSteps: int, l: GridLoop, s: EnvState)
    requires At(false, maxSteps, l, s, AtTheHandles(0)) && Runs(s, (3, 1), (5, 1), false, false)
    requires l.failures == map[]
    ensures Unhindered(su, false, maxSteps, l, s, AtTheHandles(0))
  {
    hide At;
  }

  /** The stories are told of something: every configuration with these budgets has its composition. */
  lemma GridRunExists(config: OrchestrationConfig, policy: Policy, jammed: bool, maxSteps: int) returns (su: GridSetup)
    requires FitsBudgets(config, jammed, maxSteps)
    ensures IsGridRun(su, jammed, maxSteps, 32) && su.config == config && su.policy == policy
  {
    hide StateAfter, EndOf, AskOf, Exported;
    var plan: GridPlanner := (b: SymState, s: GridWorld) => ExactAnswer(ModelProblem(b));
    var digest := (s: GridWorld) => if s.door.jammed then "jammed" else "free";
    su := ComposeGrid(plan, GridOracle(LAYOUT, maxSteps, ResetState(LAYOUT, jammed)), config, policy, digest);
  }
}
