/**
  Planning in the optimistic CooperativeGrid model (domains/cooperative_grid/model.py over
  kit/planning.py): the search always answers with a plan, and its length has a closed form.
*/
module GridPlanning {
  import opened Common
  import opened Skills
  import opened Search
  import opened GridModel

  const PLACES: set<string> := {HANDLE_LEFT, HANDLE_RIGHT, GOAL}
  const SPOTS: seq<string> := [HANDLE_LEFT, HANDLE_RIGHT, GOAL, HALL]

  /** The symbolic states of the two-agent domain. */
  predicate TwoAgents(sym: SymState)
  {
    && sym.agents == {"A", "B"} && sym.places == PLACES && sym.door == DOOR
    && sym.at.Keys == {"A", "B"} && sym.at["A"] in SPOTS && sym.at["B"] in SPOTS
  }

  function StateOf(a: string, b: string, doorOpen: bool): SymState
  {
    SymState({"A", "B"}, PLACES, DOOR, map["A" := a, "B" := b], doorOpen)
  }

  lemma StateIsDetermined(sym: SymState)
    requires TwoAgents(sym)
    ensures sym == StateOf(sym.at["A"], sym.at["B"], sym.doorOpen)
  {
    assert sym.at == map["A" := sym.at["A"], "B" := sym.at["B"]];
  }

  /** Both agents to every place, one cooperative opening, and a shake by either. */
  function Candidates(): seq<GridCall>
  {
    [ GridCall(Goto, "A", GOAL, None), GridCall(Goto, "A", HANDLE_LEFT, None), GridCall(Goto, "A", HANDLE_RIGHT, None),
      GridCall(Goto, "B", GOAL, None), GridCall(Goto, "B", HANDLE_LEFT, None), GridCall(Goto, "B", HANDLE_RIGHT, None),
      GridCall(CooperateOpen, "A", DOOR, Some("B")), GridCall(ClearJam, "A", DOOR, None),
      GridCall(ClearJam, "B", DOOR, None)]
  }

  // ---------------------------------------------------------------------------------------------
  // The enumeration of the candidates
  // ---------------------------------------------------------------------------------------------

  function Keep(names: seq<string>, identities: set<string>): seq<string>
  {
    if names == [] then [] else (if names[0] in identities then [names[0]] else []) + Keep(names[1..], identities)
  }

  function GotoCalls(agents: seq<string>, places: seq<string>): seq<GridCall>
  {
    if agents == [] then []
    else
      var own := seq(|places|, i requires 0 <= i < |places| => GridCall(Goto, agents[0], places[i], None));
      own + GotoCalls(agents[1..], places)
  }

  function PairsOfFirst(agents: seq<string>, door: string): seq<GridCall>
    requires agents != []
  {
    seq(|agents| - 1, i requires 0 <= i < |agents| - 1 => GridCall(CooperateOpen, agents[0], door, Some(agents[1 + i])))
  }

  function OpenCalls(agents: seq<string>, door: string): seq<GridCall>
  {
    if agents == [] then [] else PairsOfFirst(agents, door) + OpenCalls(agents[1..], door)
  }

  function ClearCalls(agents: seq<string>, door: string): seq<GridCall>
  {
    seq(|agents|, i requires 0 <= i < |agents| => GridCall(ClearJam, agents[i], door, None))
  }

  /** The comprehensions of `plan` over the known agents and places, in their order. */
  function Enumeration(agents: seq<string>, places: seq<string>, door: string, identities: set<string>): seq<GridCall>
  {
    var a, p := Keep(agents, identities), Keep(places, identities);
    GotoCalls(a, p) + if door in identities then OpenCalls(a, door) + ClearCalls(a, door) else []
  }

  ghost predicate SortedNames(names: seq<string>, members: set<string>)
  {
    && (forall i, j :: 0 <= i < j < |names| ==> StringLess(names[i], names[j]))
    && (forall n :: n in names <==> n in members)
  }

  /** A set of names has one sorted tuple. */
  lemma {:induction false} SortedNamesUnique(names: seq<string>, others: seq<string>, members: set<string>)
    requires SortedNames(names, members) && SortedNames(others, members)
    ensures names == others
  {
    if names == [] {
      if others != [] { HeadIsNamed(others, members); }
    } else {
      assert names[0] in others && others[0] in names;
      FirstIsLeast(names, others[0]);
      FirstIsLeast(others, names[0]);
      StringOrder(names[0], others[0]);
      SortedTail(names, members);
      SortedTail(others, members);
      SortedNamesUnique(names[1..], others[1..], members - {names[0]});
      assert names == [names[0]] + names[1..] && others == [others[0]] + others[1..];
    }
  }

  lemma HeadIsNamed(names: seq<string>, members: set<string>)
    requires names != [] && SortedNames(names, members)
    ensures names[0] in members
  {
    assert names[0] in names;
  }

  lemma FirstIsLeast(names: seq<string>, n: string)
    requires n in names && forall i, j :: 0 <= i < j < |names| ==> StringLess(names[i], names[j])
    ensures n == names[0] || StringLess(names[0], n)
  {
  }

  lemma SortedTail(names: seq<string>, members: set<string>)
    requires names != [] && SortedNames(names, members)
    ensures SortedNames(names[1..], members - {names[0]})
  {
    forall n
      ensures n in names[1..] <==> n in members - {names[0]}
    {
      if n in names[1..] {
        var i :| 0 <= i < |names[1..]| && names[1..][i] == n;
        assert StringLess(names[0], names[i + 1]);
        StringOrder(n, n);
      } else if n in names {
        assert names == [names[0]] + names[1..];
      }
    }
  }

  lemma FrozenAgents()
    ensures SortedNames(["A", "B"], {"A", "B"})
  {
    assert StringLess("A", "B");
    hide StringLess;
  }

  lemma FrozenPlaces()
    ensures SortedNames([GOAL, HANDLE_LEFT, HANDLE_RIGHT], PLACES)
  {
    hide StringLess;
    HandlesAreSorted();
  }

  lemma HandlesAreSorted()
    ensures StringLess(GOAL, HANDLE_LEFT) && StringLess(GOAL, HANDLE_RIGHT) && StringLess(HANDLE_LEFT, HANDLE_RIGHT)
  {
    CommonPrefix("handle_", "left", "right");
    assert HANDLE_LEFT == "handle_" + "left" && HANDLE_RIGHT == "handle_" + "right";
  }

  lemma {:induction false} CommonPrefix(prefix: string, a: string, b: string)
    requires StringLess(a, b)
    ensures StringLess(prefix + a, prefix + b)
  {
    if prefix == "" {
      assert prefix + a == a && prefix + b == b;
    } else {
      CommonPrefix(prefix[1..], a, b);
      assert (prefix + a)[1..] == prefix[1..] + a && (prefix + b)[1..] == prefix[1..] + b;
    }
  }

  /** Enumerating a two-agent state by its sorted names, all of them known, gives exactly the candidates. */
  lemma EnumerationIsCandidates(sym: SymState, agents: seq<string>, places: seq<string>, identities: set<string>)
    requires TwoAgents(sym) && SortedNames(agents, sym.agents) && SortedNames(places, sym.places)
    requires sym.agents + sym.places + {sym.door} <= identities
    ensures Enumeration(agents, places, sym.door, identities) == Candidates()
  {
    hide Keep, GotoCalls, OpenCalls, ClearCalls, SortedNames;
    FrozenAgents();
    FrozenPlaces();
    SortedNamesUnique(agents, ["A", "B"], sym.agents);
    SortedNamesUnique(places, [GOAL, HANDLE_LEFT, HANDLE_RIGHT], sym.places);
    AllKept(agents, sym.agents, identities);
    AllKept(places, sym.places, identities);
    FrozenGotos(places);
    FrozenDoorCalls();
  }

  lemma AllKept(names: seq<string>, members: set<string>, identities: set<string>)
    requires SortedNames(names, members) && members <= identities
    ensures Keep(names, identities) == names
  {
    KeepAll(names, identities);
  }

  lemma FrozenGotos(places: seq<string>)
    requires places == [GOAL, HANDLE_LEFT, HANDLE_RIGHT]
    ensures GotoCalls(["A", "B"], places) == Candidates()[..6]
  {
    assert ["A", "B"][1..] == ["B"] && ["B"][1..] == [];
    assert GotoCalls([], places) == [];
    assert GotoCalls(["B"], places) == Candidates()[3..6];
  }

  lemma FrozenDoorCalls()
    ensures OpenCalls(["A", "B"], DOOR) + ClearCalls(["A", "B"], DOOR) == Candidates()[6..]
  {
    assert ["A", "B"][1..] == ["B"] && ["B"][1..] == [];
    assert OpenCalls([], DOOR) == [] && OpenCalls(["B"], DOOR) == [];
    assert OpenCalls(["A", "B"], DOOR) == [Candidates()[6]];
  }

  lemma {:induction false} KeepAll(names: seq<string>, identities: set<string>)
    requires forall n :: n in names ==> n in identities
    ensures Keep(names, identities) == names
  {
    if names != [] { KeepAll(names[1..], identities); }
  }

  function Next(sym: SymState, c: GridCall): Expansion<SymState>
  {
    if Applicable(sym, c).ValidatedCall? then Successor(Apply(sym, c)) else Inapplicable
  }

  predicate AllAtGoal(sym: SymState)
  {
    sym.at != map[] && forall a :: a in sym.at ==> sym.at[a] == GOAL
  }

  function ModelProblem(sym: SymState): Problem<SymState, GridCall>
  {
    Problem(sym, Candidates(), (s: SymState) => AllAtGoal(s), (s: SymState, c: GridCall) => Next(s, c))
  }

  // ---------------------------------------------------------------------------------------------
  // How far the goal is
  // ---------------------------------------------------------------------------------------------

  function Holds(sym: SymState, handle: string): nat
    requires TwoAgents(sym)
  {
    if sym.at["A"] == handle || sym.at["B"] == handle then 1 else 0
  }

  function Outside(place: string): nat
  {
    if place == GOAL then 0 else 1
  }

  /**
    Behind a closed door: a walk per free handle, the opening, and a
    walk per agent. Otherwise a walk per agent outside.
  */
  function ModelCost(sym: SymState): nat
    requires TwoAgents(sym)
  {
    if sym.doorOpen then Outside(sym.at["A"]) + Outside(sym.at["B"])
    else (2 - Holds(sym, HANDLE_LEFT) - Holds(sym, HANDLE_RIGHT)) + 3
  }

  lemma NextKeepsShape(sym: SymState, c: GridCall)
    requires TwoAgents(sym) && Next(sym, c).Successor?
    ensures TwoAgents(Next(sym, c).state)
  {
  }

  lemma NextLowersByAtMostOne(sym: SymState, c: GridCall)
    requires TwoAgents(sym) && Next(sym, c).Successor?
    ensures TwoAgents(Next(sym, c).state) && ModelCost(Next(sym, c).state) + 1 >= ModelCost(sym)
  {
    NextKeepsShape(sym, c);
    if c.op == CooperateOpen {
      assert {sym.Where(c.agent), sym.Where(c.partner.value)} == HANDLES;
      assert HANDLE_LEFT in {sym.Where(c.agent), sym.Where(c.partner.value)}
             && HANDLE_RIGHT in {sym.Where(c.agent), sym.Where(c.partner.value)};
    }
  }

  /** Nobody shares a handle, and the goal room is occupied only behind an open door. */
  predicate Orderly(sym: SymState)
    requires TwoAgents(sym)
  {
    && (sym.at["A"] in HANDLES ==> sym.at["A"] != sym.at["B"])
    && (!sym.doorOpen ==> sym.at["A"] != GOAL && sym.at["B"] != GOAL)
  }

  lemma NextKeepsOrder(sym: SymState, c: GridCall)
    requires TwoAgents(sym) && Orderly(sym) && Next(sym, c).Successor?
    ensures TwoAgents(Next(sym, c).state) && Orderly(Next(sym, c).state)
  {
    NextKeepsShape(sym, c);
    if c.op == Goto {
      var other := if c.agent == "A" then "B" else "A";
      assert sym.at[other] == c.target ==> Taken(sym, c) || c.target == GOAL;
    }
  }

  /** Every state the model can reach keeps the order, and no plan beats the cost. */
  lemma {:induction false} ReachedInModel(sym: SymState, path: seq<GridCall>)
    requires TwoAgents(sym) && Orderly(sym) && Reached(ModelProblem(sym), path).Some?
    ensures var t := Reached(ModelProblem(sym), path).value;
            TwoAgents(t) && Orderly(t) && ModelCost(t) + |path| >= ModelCost(sym)
    decreases |path|
  {
    hide Next, Orderly, ModelCost, TwoAgents, Candidates;
    if path != [] {
      ReachedInModel(sym, Init(path));
      var before := Reached(ModelProblem(sym), Init(path)).value;
      NextLowersByAtMostOne(before, Last(path));
      NextKeepsOrder(before, Last(path));
    }
  }

  lemma CostZeroIsGoal(sym: SymState)
    requires TwoAgents(sym)
    ensures AllAtGoal(sym) && sym.doorOpen <==> ModelCost(sym) == 0
  {
    assert "A" in sym.at && "B" in sym.at;
  }

  lemma SomeCallHelps(sym: SymState) returns (c: GridCall)
    requires TwoAgents(sym) && Orderly(sym) && ModelCost(sym) > 0
    ensures c in Candidates() && Next(sym, c).Successor?
    ensures TwoAgents(Next(sym, c).state) && ModelCost(Next(sym, c).state) == ModelCost(sym) - 1
  {
    if sym.doorOpen {
      c := if sym.at["A"] != GOAL then Candidates()[0] else Candidates()[3];
      WalkHelps(sym, c);
    } else if sym.at["A"] !in HANDLES {
      c := if sym.at["B"] == HANDLE_LEFT then Candidates()[2] else Candidates()[1];
      WalkHelps(sym, c);
    } else if sym.at["B"] !in HANDLES {
      c := if sym.at["A"] == HANDLE_LEFT then Candidates()[5] else Candidates()[4];
      WalkHelps(sym, c);
    } else {
      c := Candidates()[6];
      OpeningHelps(sym, c);
    }
    assert c in Candidates();
  }

  /** A walk into the goal room behind an open door, or to a handle nobody holds before a closed one. */
  lemma WalkHelps(sym: SymState, c: GridCall)
    requires TwoAgents(sym) && c.op == Goto && c.partner.None? && c.agent in {"A", "B"}
    requires if sym.doorOpen then c.target == GOAL && sym.at[c.agent] != GOAL
             else c.target in HANDLES && Holds(sym, c.target) == 0 && sym.at[c.agent] !in HANDLES
    ensures Next(sym, c).Successor? && TwoAgents(Next(sym, c).state)
            && ModelCost(Next(sym, c).state) == ModelCost(sym) - 1
  {
    assert c.target in HANDLES ==> !Taken(sym, c);
    NextKeepsShape(sym, c);
  }

  lemma OpeningHelps(sym: SymState, c: GridCall)
    requires TwoAgents(sym) && Orderly(sym) && c == GridCall(CooperateOpen, "A", DOOR, Some("B"))
    requires !sym.doorOpen && sym.at["A"] in HANDLES && sym.at["B"] in HANDLES
    ensures Next(sym, c).Successor? && TwoAgents(Next(sym, c).state)
            && ModelCost(Next(sym, c).state) == ModelCost(sym) - 1
  {
    assert {sym.at["A"], sym.at["B"]} == HANDLES;
    NextKeepsShape(sym, c);
  }

  lemma {:induction false} ModelPlanOfCost(sym: SymState) returns (path: seq<GridCall>)
    requires TwoAgents(sym) && Orderly(sym)
    ensures IsPlan(ModelProblem(sym), path) && |path| == ModelCost(sym)
    decreases ModelCost(sym)
  {
    hide Next, Orderly, ModelCost, TwoAgents, Candidates;
    CostZeroIsGoal(sym);
    if ModelCost(sym) == 0 {
      path := [];
    } else {
      var c := SomeCallHelps(sym);
      NextKeepsOrder(sym, c);
      var rest := ModelPlanOfCost(Next(sym, c).state);
      path := [c] + rest;
      ReachedOne(ModelProblem(sym), c);
      ReachedCons(ModelProblem(sym), c, rest);
    }
  }

  // ---------------------------------------------------------------------------------------------
  // The planner's answer
  // ---------------------------------------------------------------------------------------------

  /** All states of the domain. */
  ghost function ModelStates(): seq<SymState>
  {
    seq(32, i requires 0 <= i < 32 => StateOf(SPOTS[i % 4], SPOTS[i / 4 % 4], i / 16 == 0))
  }

  ghost function ModelSpace(): set<SymState>
  {
    set s | s in ModelStates()
  }

  lemma SpaceHoldsEveryState(sym: SymState)
    requires TwoAgents(sym)
    ensures sym in ModelSpace()
  {
    StateIsDetermined(sym);
    var i :| 0 <= i < 4 && SPOTS[i] == sym.at["A"];
    var j :| 0 <= j < 4 && SPOTS[j] == sym.at["B"];
    hide StateOf;
    StateAt(i, j, sym.doorOpen);
  }

  lemma StateAt(i: nat, j: nat, doorOpen: bool)
    requires i < 4 && j < 4
    ensures StateOf(SPOTS[i], SPOTS[j], doorOpen) in ModelStates()
  {
    hide StateOf;
    var k := i + 4 * j + (if doorOpen then 0 else 16);
    assert k % 4 == i && k / 4 % 4 == j && (k / 16 == 0 <==> doorOpen);
    assert ModelStates()[k] == StateOf(SPOTS[i], SPOTS[j], doorOpen);
  }

  function ModelKey(s: SymState): SymState
  {
    s
  }

  /**
    From every orderly two-agent state the search answers with a plan whenever its node budget is at
    least 32, and the plan has exactly `ModelCost` calls: five from the corridor with the door closed.
  */
  lemma ModelPlannerAnswers(sym: SymState, budget: int, r: PlannerResult<GridCall>)
    requires TwoAgents(sym) && Orderly(sym) && budget >= 32 && Correct(ModelProblem(sym), ModelKey, budget, r)
    ensures r.PlanFound? && |r.plan| == ModelCost(sym)
  {
    hide TwoAgents, Orderly, ModelCost, Candidates, Next;
    var p := ModelProblem(sym);
    var shortest := ModelPlanOfCost(sym);
    forall path | Reached(p, path).Some?
      ensures ModelKey(Reached(p, path).value) in ModelSpace()
    {
      ReachedInModel(sym, path);
      SpaceHoldsEveryState(Reached(p, path).value);
    }
    MemberCount(ModelStates());
    ModelNeverRaises(sym);
    AdequateBudgetIsExact(p, ModelKey, budget, ModelSpace(), r);
    assert IsPlan(p, shortest);
    PlanHasCost(sym, r.plan);
  }

  lemma ModelNeverRaises(sym: SymState)
    ensures !MayRaise(ModelProblem(sym))
  {
  }

  lemma GoalHasNoCost(sym: SymState)
    requires TwoAgents(sym) && Orderly(sym) && AllAtGoal(sym)
    ensures ModelCost(sym) == 0
  {
    assert "A" in sym.at && "B" in sym.at;
  }

  /** The frozen start: both agents in the hall, the door closed. */
  lemma StartNeedsFiveCalls()
    ensures var s := StateOf(HALL, HALL, false); TwoAgents(s) && Orderly(s) && ModelCost(s) == 5
  {
  }

  // ---------------------------------------------------------------------------------------------
  // Which call a least plan starts with
  // ---------------------------------------------------------------------------------------------

  /** The call is applicable and shortens the way by one. */
  predicate Helps(sym: SymState, c: GridCall)
    requires TwoAgents(sym)
  {
    && Next(sym, c).Successor? && TwoAgents(Next(sym, c).state)
    && ModelCost(Next(sym, c).state) == ModelCost(sym) - 1
  }

  /** The head of the least plan is the first candidate that helps. */
  lemma HeadIsFirstHelp(sym: SymState, plan: seq<GridCall>, r: nat)
    requires TwoAgents(sym) && Orderly(sym) && ModelCost(sym) > 0 && LeastPlan(ModelProblem(sym), plan)
    requires r < |Candidates()| && Helps(sym, Candidates()[r])
    requires forall i :: 0 <= i < r ==> !Helps(sym, Candidates()[i])
    ensures |plan| == ModelCost(sym) && plan[0] == Candidates()[r]
  {
    hide TwoAgents, Orderly, ModelCost, Candidates, Next, Leq, IsPlan, Helps;
    var p := ModelProblem(sym);
    PlanHasCost(sym, plan);
    HeadHelps(sym, plan);
    var path := HelpStartsPlan(sym, Candidates()[r]);
    EarlierHead(p.calls, plan, path);
    RankUpTo(p.calls, r);
  }

  lemma HelpStartsPlan(sym: SymState, c: GridCall) returns (path: seq<GridCall>)
    requires TwoAgents(sym) && Orderly(sym) && ModelCost(sym) > 0 && c in Candidates() && Helps(sym, c)
    ensures IsPlan(ModelProblem(sym), path) && |path| == ModelCost(sym) && path[0] == c
  {
    hide TwoAgents, Orderly, ModelCost, Candidates, Next;
    NextKeepsOrder(sym, c);
    var rest := ModelPlanOfCost(Next(sym, c).state);
    path := [c] + rest;
    PlanCons(ModelProblem(sym), c, rest);
  }

  lemma PlanHasCost(sym: SymState, plan: seq<GridCall>)
    requires TwoAgents(sym) && Orderly(sym) && LeastPlan(ModelProblem(sym), plan)
    ensures |plan| == ModelCost(sym)
  {
    hide TwoAgents, Orderly, ModelCost, Candidates, Next;
    var p := ModelProblem(sym);
    var shortest := ModelPlanOfCost(sym);
    ReachedInModel(sym, plan);
    GoalHasNoCost(Reached(p, plan).value);
    assert Leq(p.calls, plan, shortest);
  }

  lemma HeadHelps(sym: SymState, plan: seq<GridCall>)
    requires TwoAgents(sym) && Orderly(sym) && plan != [] && |plan| == ModelCost(sym)
    requires IsPlan(ModelProblem(sym), plan)
    ensures plan[0] in Candidates() && Helps(sym, plan[0])
  {
    hide TwoAgents, Orderly, ModelCost, Candidates, Next;
    var p := ModelProblem(sym);
    HeadOfPlan(p, plan);
    var next := Next(sym, plan[0]).state;
    NextLowersByAtMostOne(sym, plan[0]);
    NextKeepsOrder(sym, plan[0]);
    var q := ModelProblem(next);
    assert IsPlan(q, plan[1..]);
    ReachedInModel(next, plan[1..]);
    GoalHasNoCost(Reached(q, plan[1..]).value);
  }
}
