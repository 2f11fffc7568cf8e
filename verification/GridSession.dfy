/**
  Whole sessions of the CooperativeGrid environment, faults included
  (domains/cooperative_grid/environment.py on kit/environment.py). A fault in the middle of a walk
  leaves the cached state behind the simulator; what still refines the model then, and what does not.
*/
module GridSession {
  import opened Common
  import opened Skills
  import opened Search
  import opened Execution
  import opened Executive
  import opened Grid
  import opened GridBackend
  import opened GridModel
  import opened GridAdapter
  import opened LoopModel

  /** The simulator and the adapter's cached state. */
  datatype EnvState = EnvState(g: GridState, cached: Option<GridWorld>)

  /** One call, and what the router answers where it is asked. */
  datatype Ask = Ask(call: GridCall, path: Option<seq<Action>>)

  function EndOf(l: Layout, maxSteps: int, s: EnvState, ask: Ask): AttemptEnd
  {
    ExecuteEnd(l, maxSteps, s.g, s.cached, ask.call, ask.path)
  }

  function After(l: Layout, maxSteps: int, s: EnvState, ask: Ask): EnvState
  {
    var e := EndOf(l, maxSteps, s, ask);
    EnvState(e.g, CachedAfter(s.cached, e.answer))
  }

  function Session(l: Layout, maxSteps: int, s: EnvState, asks: seq<Ask>): EnvState
    decreases |asks|
  {
    if asks == [] then s else After(l, maxSteps, Session(l, maxSteps, s, Init(asks)), Last(asks))
  }

  ghost predicate RouterAnswers(l: Layout, s: EnvState, ask: Ask)
  {
    PathAnswers(l, s.g, s.cached, ask.call, ask.path)
  }

  /** The router's answers are its own throughout the session. */
  ghost predicate Answered(l: Layout, maxSteps: int, s: EnvState, asks: seq<Ask>)
    decreases |asks|
  {
    asks == [] ||
    (Answered(l, maxSteps, s, Init(asks)) && RouterAnswers(l, Session(l, maxSteps, s, Init(asks)), Last(asks)))
  }

  function ResetState(l: Layout, jammedAtStart: bool): EnvState
  {
    EnvState(Started(l, jammedAtStart), Some(Read(l, Started(l, jammedAtStart))))
  }

  lemma {:induction false} SessionAppend(l: Layout, maxSteps: int, s: EnvState, asks: seq<Ask>, more: seq<Ask>)
    ensures var mid := Session(l, maxSteps, s, asks);
            && Session(l, maxSteps, s, asks + more) == Session(l, maxSteps, mid, more)
            && (Answered(l, maxSteps, s, asks + more) <==>
                  Answered(l, maxSteps, s, asks) && Answered(l, maxSteps, mid, more))
    decreases |more|
  {
    hide After, RouterAnswers;
    if more == [] {
      assert asks + more == asks;
    } else {
      assert Init(asks + more) == asks + Init(more);
      SessionAppend(l, maxSteps, s, asks, Init(more));
    }
  }

  // ---------------------------------------------------------------------------------------------
  // In sync, or behind by one walker
  // ---------------------------------------------------------------------------------------------

  /** The cached state is a read of a state that differs from the simulator's in the walker's cell and the end only. */
  predicate LagsBy(l: Layout, s: EnvState, walker: Agent, before: GridState)
  {
    && s.g.Over() && s.cached == Some(Read(l, before)) && !before.Over()
    && before.doorOpen == s.g.doorOpen && before.jammed == s.g.jammed
    && before.Of(Other(walker)) == s.g.Of(Other(walker))
  }

  ghost predicate Tracks(l: Layout, s: EnvState)
  {
    InSync(l, s.g, s.cached) || exists walker, before :: LagsBy(l, s, walker, before)
  }

  lemma {:induction false} RouteMoves(l: Layout, g: GridState, agent: Agent, targets: seq<Cell>, path: seq<Action>)
    requires Reached(RouteProblem(l, g, agent, targets), path).Some?
    ensures forall i :: 0 <= i < |path| ==> IsMove(path[i])
    decreases |path|
  {
    if path != [] { RouteMoves(l, g, agent, targets, Init(path)); }
  }

  /** A walk moves the walker only. */
  lemma {:induction false} WalkMovesOne(l: Layout, maxSteps: int, g: GridState, agent: Agent, path: seq<Action>)
    requires forall i :: 0 <= i < |path| ==> IsMove(path[i])
    ensures var h := Play(l, maxSteps, g, Solos(agent, path));
            h.Of(Other(agent)) == g.Of(Other(agent)) && h.doorOpen == g.doorOpen && h.jammed == g.jammed
    decreases |path|
  {
    if path != [] {
      hide Stepped;
      WalkMovesOne(l, maxSteps, g, agent, Init(path));
      SolosInit(agent, path);
      SoloMove(l, maxSteps, Play(l, maxSteps, g, Solos(agent, Init(path))), agent, Last(path));
    }
  }

  lemma SoloMove(l: Layout, maxSteps: int, g: GridState, agent: Agent, m: Action)
    requires IsMove(m)
    ensures var h := Stepped(l, maxSteps, g, Solo(agent, m));
            h.Of(Other(agent)) == g.Of(Other(agent)) && h.doorOpen == g.doorOpen && h.jammed == g.jammed
  {
  }

  /**
    From a cache in sync exactly one kind of call leaves it behind: an attempt that ran primitives and
    then faulted. Results, refusals, rejections and attempts that never got to a step keep it in sync.
  */
  lemma SyncIsKeptIff(l: Layout, maxSteps: int, s: EnvState, ask: Ask)
    requires ValidLayout(l) && InSync(l, s.g, s.cached) && RouterAnswers(l, s, ask)
    ensures var answer := EndOf(l, maxSteps, s, ask).answer;
            var t := After(l, maxSteps, s, ask);
            InSync(l, t.g, t.cached) <==>
            !(answer.RaisedFault? && answer.fault.caseC.Some? && answer.fault.caseC.value > 0)
  {
    hide PlacesOf, Stepped, Play, Project, IsRoute, WalkEnd, DoorEnd;
    AttemptRefinesModel(l, maxSteps, s.g, s.cached, ask.call, ask.path);
    if ReachesAttempt(s.cached, ask.call) {
      EscapedWalkIsOver(l, maxSteps, s.g, ask.call, ask.path);
      var c := ask.call;
      if c.op == CooperateOpen { DoorRefines(l, maxSteps, s.g, c, JointOf(PullNames(c), Pull), PullNames(c)); }
      if c.op == ClearJam { DoorRefines(l, maxSteps, s.g, c, JointOf({c.agent}, Shake), {c.agent}); }
    }
  }

  /** A walk that escapes ran at least one step and ended the episode. */
  lemma EscapedWalkIsOver(l: Layout, maxSteps: int, g: GridState, c: GridCall, path: Option<seq<Action>>)
    requires ValidLayout(l) && !g.Over() && PathAnswers(l, g, Some(Read(l, g)), c, path)
    ensures c.op == Goto && ReachesAttempt(Some(Read(l, g)), c) && AgentNamed(c.agent).Some? && path.Some? ==>
              var e := WalkEnd(l, maxSteps, g, Read(l, g), c, AgentNamed(c.agent).value, path.value);
              !e.answer.Returned? ==> e.g.Over() && e.answer == Escaped(e.g.steps - g.steps) && e.g.steps > g.steps
  {
    hide PlacesOf, Stepped, Project, IsRoute;
    if c.op == Goto && ReachesAttempt(Some(Read(l, g)), c) && AgentNamed(c.agent).Some? && path.Some? {
      var agent := AgentNamed(c.agent).value;
      WalkRefines(l, maxSteps, g, c, agent, path.value);
      PlayIsMonotone(l, maxSteps, g, Solos(agent, path.value));
      WalkFallsShortIff(l, maxSteps, g, agent, path.value);
      if path.value != [] { WalkTicks(l, maxSteps, g, agent, path.value); }
    }
  }

  lemma {:induction false} WalkTicks(l: Layout, maxSteps: int, g: GridState, agent: Agent, path: seq<Action>)
    requires !g.Over() && path != []
    ensures Play(l, maxSteps, g, Solos(agent, path)).steps > g.steps
    decreases |path|
  {
    hide Stepped;
    SolosInit(agent, path);
    OneTick(l, maxSteps, Play(l, maxSteps, g, Solos(agent, Init(path))), Solo(agent, Last(path)));
    PlayIsMonotone(l, maxSteps, g, Solos(agent, Init(path)));
    if |path| > 1 {
      WalkTicks(l, maxSteps, g, agent, Init(path));
    } else {
      assert Solos(agent, Init(path)) == [];
    }
  }

  /** The simulator has ended: no step runs, so a call is answered from the cache or by an empty walk. */
  lemma EndedAnswers(l: Layout, maxSteps: int, s: EnvState, ask: Ask)
    requires s.g.Over() && s.cached.Some? && !s.cached.value.episodeOver && RouterAnswers(l, s, ask)
    ensures var e := EndOf(l, maxSteps, s, ask);
            && e.g == s.g
            && (e.answer.Returned? ==> ask.call.op == Goto && e.answer.result.pre == s.cached.value)
            && (e.answer.Returned? && e.answer.result.post != s.cached.value ==> e.answer.result.post == Read(l, s.g))
            && (e.answer.Returned? && e.answer.result.outcome.Success? ==>
                  && AgentNamed(ask.call.agent).Some? && e.answer.result.post == Read(l, s.g)
                  && PlaceOf(Read(l, s.g), ask.call.agent) == ask.call.target)
  {
    hide PlacesOf, Stepped, PlaceOf, Identities;
    if ask.path.Some? && AgentNamed(ask.call.agent).Some? {
      PlayIsMonotone(l, maxSteps, s.g, Solos(AgentNamed(ask.call.agent).value, ask.path.value));
    }
  }

  /** A cut-short walk leaves the cache behind by its walker. */
  lemma CutWalkLags(l: Layout, maxSteps: int, s: EnvState, ask: Ask)
    requires ValidLayout(l) && InSync(l, s.g, s.cached) && RouterAnswers(l, s, ask)
    requires var e := EndOf(l, maxSteps, s, ask);
             e.answer.RaisedFault? && e.answer.fault.caseC.Some? && e.answer.fault.caseC.value > 0
    ensures ask.call.op == Goto && AgentNamed(ask.call.agent).Some?
    ensures LagsBy(l, After(l, maxSteps, s, ask), AgentNamed(ask.call.agent).value, s.g)
  {
    hide PlacesOf, Stepped, Play, Project, WalkEnd, DoorEnd;
    var c := ask.call;
    if c.op == CooperateOpen {
      DoorRefines(l, maxSteps, s.g, c, JointOf(PullNames(c), Pull), PullNames(c));
    } else if c.op == ClearJam {
      DoorRefines(l, maxSteps, s.g, c, JointOf({c.agent}, Shake), {c.agent});
    } else {
      WalkLags(l, maxSteps, s.g, c, AgentNamed(c.agent).value, ask.path.value);
    }
  }

  lemma WalkLags(l: Layout, maxSteps: int, g: GridState, c: GridCall, agent: Agent, path: seq<Action>)
    requires ValidLayout(l) && c.op == Goto && AgentNamed(c.agent) == Some(agent)
    requires IsRoute(l, g, agent, CellsOf(PlacesOf(l), c.target), Some(path))
    ensures var e := WalkEnd(l, maxSteps, g, Read(l, g), c, agent, path);
            && e.g.Of(Other(agent)) == g.Of(Other(agent)) && e.g.doorOpen == g.doorOpen && e.g.jammed == g.jammed
            && (!e.answer.Returned? ==> e.g.Over())
  {
    hide PlacesOf, Stepped, Play, Project, PlaceOf;
    WalkRefines(l, maxSteps, g, c, agent, path);
    RouteMoves(l, g, agent, CellsOf(PlacesOf(l), c.target), path);
    WalkMovesOne(l, maxSteps, g, agent, path);
    PlayIsMonotone(l, maxSteps, g, Solos(agent, path));
  }

  lemma AskKeepsTracks(l: Layout, maxSteps: int, s: EnvState, ask: Ask)
    requires ValidLayout(l) && Tracks(l, s) && RouterAnswers(l, s, ask)
    ensures Tracks(l, After(l, maxSteps, s, ask))
  {
    hide ExecuteEnd, Read, RouterAnswers, ValidLayout;
    var t := After(l, maxSteps, s, ask);
    if InSync(l, s.g, s.cached) {
      SyncIsKeptIff(l, maxSteps, s, ask);
      if !InSync(l, t.g, t.cached) {
        CutWalkLags(l, maxSteps, s, ask);
        assert LagsBy(l, t, AgentNamed(ask.call.agent).value, s.g);
      }
    } else {
      var walker, before :| LagsBy(l, s, walker, before);
      ReadOver(l, before);
      EndedAnswers(l, maxSteps, s, ask);
      assert InSync(l, t.g, t.cached) || LagsBy(l, t, walker, before);
    }
  }

  lemma ReadOver(l: Layout, g: GridState)
    ensures Read(l, g).episodeOver == g.Over()
  {
  }

  /** From reset on, through every fault, the cache is in sync or behind by one walker of an ended episode. */
  lemma {:induction false} SessionTracks(l: Layout, maxSteps: int, s: EnvState, asks: seq<Ask>)
    requires ValidLayout(l) && Tracks(l, s) && Answered(l, maxSteps, s, asks)
    ensures Tracks(l, Session(l, maxSteps, s, asks))
    decreases |asks|
  {
    hide Tracks, After, RouterAnswers;
    if asks != [] {
      SessionTracks(l, maxSteps, s, Init(asks));
      AskKeepsTracks(l, maxSteps, Session(l, maxSteps, s, Init(asks)), Last(asks));
    }
  }

  // ---------------------------------------------------------------------------------------------
  // What every result says of itself, and what brings the cache back
  // ---------------------------------------------------------------------------------------------

  /** The result of an attempt names its call, starts at the cached state, and its class fits its two states. */
  ghost predicate HonestResult(s: EnvState, ask: Ask, answer: Answer)
  {
    answer.Returned? ==>
      var r := answer.result;
      && r.call == ask.call && s.cached == Some(r.pre)
      && WellFormedResult(r, WorldOf) && r.failureClass != Some(PartialExecution)
  }

  lemma TrackedResultIsHonest(l: Layout, maxSteps: int, s: EnvState, ask: Ask)
    requires ValidLayout(l) && Tracks(l, s) && RouterAnswers(l, s, ask)
    ensures HonestResult(s, ask, EndOf(l, maxSteps, s, ask).answer)
  {
    if InSync(l, s.g, s.cached) {
      hide ExecuteEnd, Read, RouterAnswers, ValidLayout;
      AttemptRefinesModel(l, maxSteps, s.g, s.cached, ask.call, ask.path);
    } else {
      var walker, before :| LagsBy(l, s, walker, before);
      LaggingEnd(l, maxSteps, s, walker, before, ask);
    }
  }

  /** From behind: an arrival that is judged on a fresh read, or a refusal that leaves everything as it was. */
  lemma LaggingEnd(l: Layout, maxSteps: int, s: EnvState, walker: Agent, before: GridState, ask: Ask)
    requires ValidLayout(l) && LagsBy(l, s, walker, before) && RouterAnswers(l, s, ask)
    ensures var e := EndOf(l, maxSteps, s, ask);
            && e.g == s.g
            && (e.answer.Returned? ==>
                  e.answer == Succeeded(ask.call, s.cached.value, Read(l, s.g), 0)
                  || e.answer == Failed(ask.call, s.cached.value, s.cached.value, Some(RejectedBeforeTransition), 0))
  {
    hide PlacesOf, PlaceOf, Identities, Stepped;
    var c := ask.call;
    ReadOver(l, before);
    if ReachesAttempt(s.cached, c) && c.op == Goto && AgentNamed(c.agent).Some? && ask.path.Some? {
      var agent := AgentNamed(c.agent).value;
      PlayIsMonotone(l, maxSteps, s.g, Solos(agent, ask.path.value));
      if ask.path.value == [] {
        EmptyRouteArrived(l, s.g, c, agent);
      }
    }
  }

  lemma EmptyRouteArrived(l: Layout, g: GridState, c: GridCall, agent: Agent)
    requires ValidLayout(l) && AgentNamed(c.agent) == Some(agent)
    requires IsRoute(l, g, agent, CellsOf(PlacesOf(l), c.target), Some([]))
    ensures PlaceOf(Read(l, g), c.agent) == c.target
  {
    hide PlacesOf, PlaceOf;
    AgentNames(c.agent);
    PlacesAreDisjoint(l, c.target, g.Of(agent));
    PlacesRead(l, g, agent);
  }

  /**
    Over every session from reset, faults included: each result names its call and reports the cached state
    as its start, its failure class agrees with its two states, and no failure is partial.
  */
  lemma SessionResultsAreHonest(l: Layout, maxSteps: int, jammedAtStart: bool, asks: seq<Ask>, ask: Ask)
    requires ValidLayout(l) && Answered(l, maxSteps, ResetState(l, jammedAtStart), asks)
    requires RouterAnswers(l, Session(l, maxSteps, ResetState(l, jammedAtStart), asks), ask)
    ensures var s := Session(l, maxSteps, ResetState(l, jammedAtStart), asks);
            HonestResult(s, ask, EndOf(l, maxSteps, s, ask).answer)
  {
    hide HonestResult, ValidLayout, RouterAnswers, EndOf;
    SessionTracks(l, maxSteps, ResetState(l, jammedAtStart), asks);
    TrackedResultIsHonest(l, maxSteps, Session(l, maxSteps, ResetState(l, jammedAtStart), asks), ask);
  }

  /** A cache that is behind is brought back by a success, and by nothing else. */
  lemma SyncReturnsIff(l: Layout, maxSteps: int, s: EnvState, ask: Ask)
    requires ValidLayout(l) && Tracks(l, s) && !InSync(l, s.g, s.cached) && RouterAnswers(l, s, ask)
    ensures var t := After(l, maxSteps, s, ask);
            InSync(l, t.g, t.cached) <==> SucceedsFrom(l, maxSteps, s, ask)
  {
    hide ExecuteEnd, Read, RouterAnswers, ValidLayout;
    var walker, before :| LagsBy(l, s, walker, before);
    LaggingEnd(l, maxSteps, s, walker, before, ask);
  }

  // ---------------------------------------------------------------------------------------------
  // Every tick of the simulator is charged once
  // ---------------------------------------------------------------------------------------------

  /** From a cache in sync or behind, an answer charges exactly the ticks that its attempt ran. */
  lemma TicksAreCharged(l: Layout, maxSteps: int, s: EnvState, ask: Ask)
    requires ValidLayout(l) && Tracks(l, s) && RouterAnswers(l, s, ask)
    ensures var e := EndOf(l, maxSteps, s, ask); e.g.steps == s.g.steps + PrimitiveCharge(e.answer)
  {
    if InSync(l, s.g, s.cached) {
      SyncedTicks(l, maxSteps, s, ask);
    } else {
      var walker, before :| LagsBy(l, s, walker, before);
      LaggingTicks(l, maxSteps, s, walker, before, ask);
    }
  }

  lemma SyncedTicks(l: Layout, maxSteps: int, s: EnvState, ask: Ask)
    requires InSync(l, s.g, s.cached) && RouterAnswers(l, s, ask)
    ensures var e := EndOf(l, maxSteps, s, ask); e.g.steps == s.g.steps + PrimitiveCharge(e.answer)
  {
    hide PlacesOf, PlaceOf, Identities, WorldOf, IsRoute, Stepped;
    var c := ask.call;
    ReadOver(l, s.g);
    if ReachesAttempt(s.cached, c) {
      if c.op == Goto && AgentNamed(c.agent).Some? && ask.path.Some? {
        PlayIsMonotone(l, maxSteps, s.g, Solos(AgentNamed(c.agent).value, ask.path.value));
      }
      StepIsJudged(l, maxSteps, s.g, JointOf(PullNames(c), Pull));
      StepIsJudged(l, maxSteps, s.g, JointOf({c.agent}, Shake));
    }
  }

  lemma LaggingTicks(l: Layout, maxSteps: int, s: EnvState, walker: Agent, before: GridState, ask: Ask)
    requires LagsBy(l, s, walker, before) && RouterAnswers(l, s, ask)
    ensures var e := EndOf(l, maxSteps, s, ask); e.g == s.g && PrimitiveCharge(e.answer) == 0
  {
    hide PlacesOf, PlaceOf, Identities, WorldOf, IsRoute, Stepped;
    var c := ask.call;
    ReadOver(l, before);
    if ReachesAttempt(s.cached, c) && c.op == Goto && AgentNamed(c.agent).Some? && ask.path.Some? {
      PlayIsMonotone(l, maxSteps, s.g, Solos(AgentNamed(c.agent).value, ask.path.value));
    }
  }

  /** What a whole session's answers charge. */
  ghost function ChargedIn(l: Layout, maxSteps: int, s: EnvState, asks: seq<Ask>): nat
    decreases |asks|
  {
    if asks == [] then 0
    else
      var answer := EndOf(l, maxSteps, Session(l, maxSteps, s, Init(asks)), Last(asks)).answer;
      ChargedIn(l, maxSteps, s, Init(asks)) + PrimitiveCharge(answer)
  }

  /** Conservation: over every session from reset the primitives charged are the simulator's clock, faults included. */
  lemma SessionChargesTheClock(l: Layout, maxSteps: int, jammedAtStart: bool, asks: seq<Ask>)
    requires ValidLayout(l) && Answered(l, maxSteps, ResetState(l, jammedAtStart), asks)
    ensures var s := ResetState(l, jammedAtStart);
            Session(l, maxSteps, s, asks).g.steps == ChargedIn(l, maxSteps, s, asks)
  {
    SessionTicks(l, maxSteps, ResetState(l, jammedAtStart), asks);
  }

  lemma {:induction false} SessionTicks(l: Layout, maxSteps: int, s: EnvState, asks: seq<Ask>)
    requires ValidLayout(l) && Tracks(l, s) && Answered(l, maxSteps, s, asks)
    ensures Session(l, maxSteps, s, asks).g.steps == s.g.steps + ChargedIn(l, maxSteps, s, asks)
    decreases |asks|
  {
    hide Tracks, EndOf, RouterAnswers, ValidLayout;
    if asks != [] {
      var mid := Session(l, maxSteps, s, Init(asks));
      SessionTicks(l, maxSteps, s, Init(asks));
      SessionTracks(l, maxSteps, s, Init(asks));
      TicksAreCharged(l, maxSteps, mid, Last(asks));
    }
  }

  // ---------------------------------------------------------------------------------------------
  // Which successes refine the model
  // ---------------------------------------------------------------------------------------------

  ghost predicate SucceedsFrom(l: Layout, maxSteps: int, s: EnvState, ask: Ask)
  {
    EndOf(l, maxSteps, s, ask).answer.Returned? && EndOf(l, maxSteps, s, ask).answer.result.outcome.Success?
  }

  /** The success realises what the model predicts from the state the result reports as its start. */
  ghost predicate Realised(l: Layout, maxSteps: int, s: EnvState, ask: Ask)
    requires SucceedsFrom(l, maxSteps, s, ask)
  {
    var r := EndOf(l, maxSteps, s, ask).answer.result;
    Project(r.post) == Apply(Project(r.pre), ask.call)
  }

  /** Every agent the call does not move is cached at the place where it is. */
  ghost predicate OthersCurrent(l: Layout, s: EnvState, c: GridCall)
  {
    s.cached.Some? && forall agent :: NameOf(agent) != c.agent ==>
      PlaceOf(s.cached.value, NameOf(agent)) == PlaceOf(Read(l, s.g), NameOf(agent))
  }

  /** The exact condition, for every call whatever the model says of it: the other agents' cached places are current. */
  lemma SuccessRefinesIff(l: Layout, maxSteps: int, s: EnvState, ask: Ask)
    requires ValidLayout(l) && Tracks(l, s) && RouterAnswers(l, s, ask) && SucceedsFrom(l, maxSteps, s, ask)
    ensures Realised(l, maxSteps, s, ask) <==> OthersCurrent(l, s, ask.call)
  {
    hide ExecuteEnd, ValidLayout, PlacesOf, Project, PlaceOf, IsRoute;
    if InSync(l, s.g, s.cached) {
      AttemptRefinesModel(l, maxSteps, s.g, s.cached, ask.call, ask.path);
    } else {
      var walker, before :| LagsBy(l, s, walker, before);
      ReadOver(l, before);
      EndedAnswers(l, maxSteps, s, ask);
      AgentNames(ask.call.agent);
      LateSuccess(l, before, s.g, AgentNamed(ask.call.agent).value, ask.call.target);
      var other := Other(AgentNamed(ask.call.agent).value);
      assert NameOf(other) != ask.call.agent;
    }
  }

  /** A walk answered from behind: the projections agree exactly when the other agent's place does. */
  lemma LateSuccess(l: Layout, before: GridState, g: GridState, agent: Agent, target: string)
    requires before.doorOpen == g.doorOpen && PlaceOf(Read(l, g), NameOf(agent)) == target
    ensures Project(Read(l, g)) == Project(Read(l, before)).Moved(NameOf(agent), target) <==>
            PlaceOf(Read(l, before), NameOf(Other(agent))) == PlaceOf(Read(l, g), NameOf(Other(agent)))
  {
    hide PlacesOf, Project, PlaceOf;
    PlacesRead(l, g, agent);
    PlacesRead(l, g, Other(agent));
    PlacesRead(l, before, agent);
    PlacesRead(l, before, Other(agent));
    SameNames(l, g, before);
    var moved := Project(Read(l, before)).Moved(NameOf(agent), target);
    assert moved.at[NameOf(Other(agent))] == PlaceOf(Read(l, before), NameOf(Other(agent)));
  }

  /**
    The adapter refines its model without any assumption on the cache: after every session from reset,
    faults included, each success of a call the model holds applicable realises what the model predicts.
  */
  lemma ApplicableSuccessRefines(l: Layout, maxSteps: int, jammedAtStart: bool, asks: seq<Ask>, ask: Ask)
    requires ValidLayout(l) && Answered(l, maxSteps, ResetState(l, jammedAtStart), asks)
    requires var s := Session(l, maxSteps, ResetState(l, jammedAtStart), asks);
             && RouterAnswers(l, s, ask) && SucceedsFrom(l, maxSteps, s, ask)
             && s.cached.Some? && Applicable(Project(s.cached.value), ask.call).ValidatedCall?
    ensures Realised(l, maxSteps, Session(l, maxSteps, ResetState(l, jammedAtStart), asks), ask)
  {
    hide ExecuteEnd, ValidLayout, Project, PlaceOf, RouterAnswers, Realised, SucceedsFrom, Applicable, Read;
    var s := Session(l, maxSteps, ResetState(l, jammedAtStart), asks);
    SessionTracks(l, maxSteps, ResetState(l, jammedAtStart), asks);
    SuccessRefinesIff(l, maxSteps, s, ask);
    ApplicableIsCurrent(l, maxSteps, s, ask);
  }

  /** From behind, an applicable success can only be the late walker's own. */
  lemma ApplicableIsCurrent(l: Layout, maxSteps: int, s: EnvState, ask: Ask)
    requires Tracks(l, s) && RouterAnswers(l, s, ask) && SucceedsFrom(l, maxSteps, s, ask)
    requires s.cached.Some? && Applicable(Project(s.cached.value), ask.call).ValidatedCall?
    ensures OthersCurrent(l, s, ask.call)
  {
    hide ExecuteEnd, PlacesOf, Project, PlaceOf, IsRoute;
    if !InSync(l, s.g, s.cached) {
      var walker, before :| LagsBy(l, s, walker, before);
      ReadOver(l, before);
      EndedAnswers(l, maxSteps, s, ask);
      AgentNames(ask.call.agent);
      var agent := AgentNamed(ask.call.agent).value;
      PlacesRead(l, before, AgentA);
      PlacesRead(l, before, AgentB);
      PlacesRead(l, s.g, AgentA);
      PlacesRead(l, s.g, AgentB);
      assert ApplicableGoto(Project(s.cached.value), ask.call);
      assert agent == walker;
    }
  }

  // ---------------------------------------------------------------------------------------------
  // A session that leaves the cache behind
  // ---------------------------------------------------------------------------------------------

  lemma EmptyRoute(l: Layout, g: GridState, agent: Agent, targets: seq<Cell>)
    requires g.Of(agent) in targets
    ensures IsRoute(l, g, agent, targets, Some([]))
  {
    assert IsPlan(RouteProblem(l, g, agent, targets), []);
  }

  /** The first move of a route is free, so the walker has left its cell after one step. */
  lemma FirstMove(l: Layout, g: GridState, agent: Agent, targets: seq<Cell>, path: seq<Action>)
    requires IsRoute(l, g, agent, targets, Some(path)) && g.Of(agent) !in targets
    ensures path != [] && IsMove(path[0]) && Free(l, g, Target(g.Of(agent), path[0]), agent)
    ensures Target(g.Of(agent), path[0]) !in targets ==> |path| > 1
  {
    var p := RouteProblem(l, g, agent, targets);
    HeadOfPlan(p, path);
    if |path| == 1 {
      assert path == [path[0]];
      ReachedOne(p, path[0]);
    }
  }

  /** Both agents at their handles, the door just opened, one step before a step limit. */
  const STEP_LIMIT := 6
  const AT_THE_LIMIT := GridState((3, 1), (5, 1), true, false, 5, false, false)

  /** One step before the limit, agent A sets out for the goal room: the step limit cuts the walk after one step. */
  lemma CutShort() returns (walk: Ask)
    ensures walk.call == GridCall(Goto, "A", GOAL, None)
    ensures var s := EnvState(AT_THE_LIMIT, Some(Read(LAYOUT, AT_THE_LIMIT)));
            var t := After(LAYOUT, STEP_LIMIT, s, walk);
            && RouterAnswers(LAYOUT, s, walk) && EndOf(LAYOUT, STEP_LIMIT, s, walk).answer == Escaped(1)
            && t.cached == s.cached && t.g.truncated && t.g.a in {(2, 1), (4, 1)} && t.g.b == (5, 1)
  {
    hide PlaceOf, Project, Identities, Reached, Play, Stepped, IsRoute;
    var g := AT_THE_LIMIT;
    GoalTrail(g);
    var path := RouteExists(LAYOUT, g, AgentA, LAYOUT.goals, [Right, Down, Down, Down]);
    GoalCells(LAYOUT);
    walk := Ask(GridCall(Goto, "A", GOAL, None), Some(path));
    KnownIdentities(LAYOUT, g, walk.call);
    OneStepOfWalk(path);
  }

  lemma OneStepOfWalk(path: seq<Action>)
    requires IsRoute(LAYOUT, AT_THE_LIMIT, AgentA, LAYOUT.goals, Some(path))
    ensures |path| > 1
    ensures var h := Play(LAYOUT, STEP_LIMIT, AT_THE_LIMIT, Solos(AgentA, path));
            h.truncated && h.steps == STEP_LIMIT && h.a in {(2, 1), (4, 1)} && h.b == (5, 1)
  {
    hide Reached, IsRoute;
    var g := AT_THE_LIMIT;
    FirstMove(LAYOUT, g, AgentA, LAYOUT.goals, path);
    FirstCell(path[0]);
    var one := path[..1];
    assert Init(one) == [] && Solos(AgentA, []) == [] && Last(one) == path[0];
    SolosInit(AgentA, one);
    assert Play(LAYOUT, STEP_LIMIT, g, Solos(AgentA, one)) == Stepped(LAYOUT, STEP_LIMIT, g, Solo(AgentA, path[0]));
    PlayStops(LAYOUT, STEP_LIMIT, g, AgentA, path, 1);
  }

  lemma GoalTrail(g: GridState)
    requires g.a == (3, 1) && g.doorOpen && g.b == (5, 1)
    ensures Trail(LAYOUT, g, AgentA, (3, 1), [Right, Down, Down, Down]) == Some((4, 4))
  {
    var trail := [Right, Down, Down, Down];
    assert trail[1..] == [Down, Down, Down] && [Down, Down, Down][1..] == [Down, Down] && [Down, Down][1..] == [Down];
    assert Trail(LAYOUT, g, AgentA, (4, 3), [Down]) == Some((4, 4));
    assert Trail(LAYOUT, g, AgentA, (4, 2), [Down, Down]) == Some((4, 4));
    assert Trail(LAYOUT, g, AgentA, (4, 1), [Down, Down, Down]) == Some((4, 4));
  }

  lemma FirstCell(m: Action)
    requires IsMove(m) && Walkable(LAYOUT, Target((3, 1), m))
    ensures Target((3, 1), m) in {(2, 1), (4, 1)}
  {
    assert LAYOUT.rows[0][3] == '#' && LAYOUT.rows[2][3] == '#';
  }

  lemma GoalCells(l: Layout)
    ensures CellsOf(PlacesOf(l), GOAL) == l.goals
  {
    var places := PlacesOf(l);
    assert places[1..] == [places[1], places[2]] && places[1..][1..] == [places[2]];
    assert CellsOf([places[2]], GOAL) == l.goals;
  }

  /**
    After that fault the cached state still holds A at its handle. A call of B for the place where B
    is - which the model rejects, so that the executive never makes it - is then answered by a success
    whose fresh read differs from what the model predicts.
  */
  lemma StaleSuccessMisses() returns (walk: Ask)
    ensures var s := EnvState(AT_THE_LIMIT, Some(Read(LAYOUT, AT_THE_LIMIT)));
            var late := Ask(GridCall(Goto, "B", HANDLE_RIGHT, None), Some([]));
            && walk.call == GridCall(Goto, "A", GOAL, None)
            && InSync(LAYOUT, s.g, s.cached) && Answered(LAYOUT, STEP_LIMIT, s, [walk, late])
            && SucceedsFrom(LAYOUT, STEP_LIMIT, Session(LAYOUT, STEP_LIMIT, s, [walk]), late)
            && !Realised(LAYOUT, STEP_LIMIT, Session(LAYOUT, STEP_LIMIT, s, [walk]), late)
            && Applicable(Project(Session(LAYOUT, STEP_LIMIT, s, [walk]).cached.value),
                 late.call).SymbolicallyInapplicable?
  {
    hide ExecuteEnd, PlaceOf, Project, Identities, Read, Play;
    walk := CutShort();
    var s := EnvState(AT_THE_LIMIT, Some(Read(LAYOUT, AT_THE_LIMIT)));
    var t := After(LAYOUT, STEP_LIMIT, s, walk);
    var late := Ask(GridCall(Goto, "B", HANDLE_RIGHT, None), Some([]));
    assert Init([walk]) == [] && Init([walk, late]) == [walk];
    assert Session(LAYOUT, STEP_LIMIT, s, []) == s && Session(LAYOUT, STEP_LIMIT, s, [walk]) == t;
    assert Answered(LAYOUT, STEP_LIMIT, s, []) && Answered(LAYOUT, STEP_LIMIT, s, [walk]);
    LateCall(t);
    FrozenLayoutIsValid();
    AskKeepsTracks(LAYOUT, STEP_LIMIT, s, walk);
    SuccessRefinesIff(LAYOUT, STEP_LIMIT, t, late);
  }

  lemma LateCall(t: EnvState)
    requires t.cached == Some(Read(LAYOUT, AT_THE_LIMIT)) && t.g.truncated && t.g.a in {(2, 1), (4, 1)}
             && t.g.b == (5, 1)
    ensures var late := Ask(GridCall(Goto, "B", HANDLE_RIGHT, None), Some([]));
            && RouterAnswers(LAYOUT, t, late) && SucceedsFrom(LAYOUT, STEP_LIMIT, t, late)
            && !OthersCurrent(LAYOUT, t, late.call)
            && Applicable(Project(t.cached.value), late.call).SymbolicallyInapplicable?
  {
    hide PlaceAt, Identities, Project, PlaceOf, Free;
    var c := GridCall(Goto, "B", HANDLE_RIGHT, None);
    FrozenLayoutIsValid();
    HandleCells(LAYOUT);
    KnownIdentities(LAYOUT, AT_THE_LIMIT, c);
    EmptyRoute(LAYOUT, t.g, AgentB, [(5, 1)]);
    AtHandle(LAYOUT, (3, 1));
    AtHandle(LAYOUT, (5, 1));
    AtHandle(LAYOUT, t.g.a);
    PlacesRead(LAYOUT, t.g, AgentA);
    PlacesRead(LAYOUT, t.g, AgentB);
    PlacesRead(LAYOUT, AT_THE_LIMIT, AgentA);
    PlacesRead(LAYOUT, AT_THE_LIMIT, AgentB);
    assert Solos(AgentB, []) == [];
    assert NameOf(AgentA) != c.agent;
  }
}
