/**
  The closed form of BoxPush planning: when the goal is reachable, and how long the shortest plan is.
  `Cost` counts, box by box, what is left to do; no call lowers it by more than one, and while the
  goal is solvable some call lowers it by exactly one.
*/
module BoxPushPlanning {
  import opened Common
  import opened Skills
  import opened SkillIR
  import opened Snapshots
  import opened Search
  import opened Planner
  import opened BoxPush

  ghost predicate BoxConsistent(s: SymbolicState, b: BoxId)
  {
    && DiscoveredOf(b) in s
    && (DeliveredOf(b) in s <==> PendingOf(b) !in s)
    && (LightOf(b) in s <==> HeavyOf(b) !in s)
  }

  /** The facts every projection establishes over its universe; `in_pose` is unconstrained. */
  ghost predicate Consistent(s: SymbolicState, u: Universe)
  {
    && (forall b :: b in u.boxes ==> BoxConsistent(s, b))
    && (forall a, o :: a in u.agents && o in u.agents ==> (DifferentOf(a, o) in s <==> a != o))
  }

  ghost function Posed(s: SymbolicState, u: Universe, b: BoxId): set<AgentId>
  {
    set a | a in u.agents && InPoseOf(a, b) in s
  }

  /** Calls still needed for one box: poses that are missing, then the push. */
  ghost function BoxCost(s: SymbolicState, u: Universe, b: BoxId): nat
  {
    var posed := |Posed(s, u, b)|;
    if DeliveredOf(b) in s then 0
    else if LightOf(b) in s then (if posed == 0 then 2 else 1)
    else if posed == 0 then 3 else if posed == 1 then 2 else 1
  }

  ghost function Cost(s: SymbolicState, u: Universe, goal: seq<BoxId>): nat
  {
    if goal == [] then 0 else BoxCost(s, u, goal[0]) + Cost(s, u, goal[1..])
  }

  /** Each undelivered goal box has the agents its weight demands. */
  ghost predicate Solvable(s: SymbolicState, u: Universe, goal: seq<BoxId>)
  {
    forall b :: b in goal && DeliveredOf(b) !in s ==> |u.agents| >= (if LightOf(b) in s then 1 else 2)
  }

  ghost predicate ValidInstance(u: Universe, goal: seq<BoxId>)
  {
    ValidUniverse(u) && Distinct(u.agents) && Distinct(goal) && forall b :: b in goal ==> b in u.boxes
  }

  ghost function GoalSet(goal: seq<BoxId>): set<Literal>
  {
    set b | b in goal :: DeliveredOf(b)
  }

  // ---------------------------------------------------------------------------------------------
  // One step
  // ---------------------------------------------------------------------------------------------

  ghost predicate Applicable(s: SymbolicState, c: GroundedSkillCall)
    requires IsSymbolic(c)
  {
    var b := c.box.value;
    && PendingOf(b) in s
    && (c.skill == GotoPushPose ==> DiscoveredOf(b) in s)
    && (c.skill == Push ==> LightOf(b) in s && InPoseOf(c.agents[0], b) in s)
    && (c.skill == CooperativePush ==>
          && DifferentOf(c.agents[0], c.agents[1]) in s && HeavyOf(b) in s
          && InPoseOf(c.agents[0], b) in s && InPoseOf(c.agents[1], b) in s)
  }

  lemma ApplicableMeans(s: SymbolicState, c: GroundedSkillCall)
    requires IsSymbolic(c)
    ensures Preconditions(c) <= s <==> Applicable(s, c)
  {
    var list := PreconditionList(c);
    assert forall l :: l in Preconditions(c) <==> l in list;
    if c.skill == GotoPushPose {
      assert list[0] in list && list[1] in list;
    } else if c.skill == Push {
      assert list[0] in list && list[1] in list && list[2] in list;
    } else {
      assert list[0] in list && list[1] in list && list[2] in list && list[3] in list && list[4] in list;
    }
  }

  ghost function After(s: SymbolicState, c: GroundedSkillCall): SymbolicState
    requires IsSymbolic(c)
  {
    s + Adds(c) - Deletes(c)
  }

  lemma TransitionMeans(s: SymbolicState, c: GroundedSkillCall)
    requires IsSymbolic(c)
    ensures ValidDomain(DOMAIN_IR)
    ensures Transition(DOMAIN_IR, s, c) == if Applicable(s, c) then Successor(After(s, c)) else Inapplicable
  {
    EvaluateShape(s, c);
    ApplicableMeans(s, c);
    Resolved();
    SuccessorShape(s, c);
  }

  lemma GroundableIsSymbolic(u: Universe, c: GroundedSkillCall)
    ensures HasSkill(DOMAIN_IR, c.skill) <==> IsSymbolic(c)
    ensures Groundable(DOMAIN_IR, u, c) <==> IsSymbolic(c) && GroundableAs(c.skill, u, c)
  {
    assert DOMAIN_IR[0].name == GotoPushPose && DOMAIN_IR[1].name == Push && DOMAIN_IR[2].name == CooperativePush;
  }

  /** A call only touches the literals of its own box. */
  lemma OtherBoxUntouched(s: SymbolicState, u: Universe, c: GroundedSkillCall, b: BoxId)
    requires IsSymbolic(c) && b != c.box.value
    ensures BoxCost(After(s, c), u, b) == BoxCost(s, u, b)
    ensures BoxConsistent(After(s, c), b) <==> BoxConsistent(s, b)
    ensures DeliveredOf(b) in After(s, c) <==> DeliveredOf(b) in s
    ensures LightOf(b) in After(s, c) <==> LightOf(b) in s
  {
    assert Posed(After(s, c), u, b) == Posed(s, u, b);
  }

  lemma OwnBox(s: SymbolicState, u: Universe, c: GroundedSkillCall)
    requires IsSymbolic(c) && GroundableAs(c.skill, u, c) && Applicable(s, c) && BoxConsistent(s, c.box.value)
    ensures BoxConsistent(After(s, c), c.box.value)
    ensures LightOf(c.box.value) in After(s, c) <==> LightOf(c.box.value) in s
    ensures BoxCost(After(s, c), u, c.box.value) + 1 >= BoxCost(s, u, c.box.value)
    ensures DeliveredOf(c.box.value) in After(s, c) && LightOf(c.box.value) !in s ==> |Posed(s, u, c.box.value)| >= 2
  {
    if c.skill == GotoPushPose {
      PoseKeepsBox(s, u, c);
    } else {
      DeliveryKeepsBox(s, u, c);
    }
  }

  lemma PoseKeepsBox(s: SymbolicState, u: Universe, c: GroundedSkillCall)
    requires c.skill == GotoPushPose && GroundableAs(c.skill, u, c) && Applicable(s, c) && BoxConsistent(s, c.box.value)
    ensures BoxConsistent(After(s, c), c.box.value) && DeliveredOf(c.box.value) !in After(s, c)
    ensures LightOf(c.box.value) in After(s, c) <==> LightOf(c.box.value) in s
    ensures BoxCost(After(s, c), u, c.box.value) + 1 >= BoxCost(s, u, c.box.value)
  {
    assert Posed(After(s, c), u, c.box.value) == Posed(s, u, c.box.value) + {c.agents[0]};
  }

  lemma DeliveryKeepsBox(s: SymbolicState, u: Universe, c: GroundedSkillCall)
    requires c.skill in {Push, CooperativePush} && GroundableAs(c.skill, u, c) && Applicable(s, c)
             && BoxConsistent(s, c.box.value)
    ensures BoxConsistent(After(s, c), c.box.value)
    ensures LightOf(c.box.value) in After(s, c) <==> LightOf(c.box.value) in s
    ensures BoxCost(After(s, c), u, c.box.value) == 0 && BoxCost(s, u, c.box.value) == 1
    ensures LightOf(c.box.value) !in s ==> |Posed(s, u, c.box.value)| >= 2
  {
    var posed := Posed(s, u, c.box.value);
    assert c.agents[0] in posed;
    if c.skill == CooperativePush {
      StringOrder(c.agents[0], c.agents[0]);
      assert {c.agents[0], c.agents[1]} <= posed;
      SubsetSize({c.agents[0], c.agents[1]}, posed);
    }
  }

  lemma {:induction false} SubsetSize<T>(small: set<T>, large: set<T>)
    requires small <= large
    ensures |small| <= |large|
  {
    if small != {} {
      var x :| x in small;
      SubsetSize(small - {x}, large - {x});
    }
  }

  lemma StepKeepsConsistent(s: SymbolicState, u: Universe, c: GroundedSkillCall)
    requires IsSymbolic(c) && GroundableAs(c.skill, u, c) && Applicable(s, c) && Consistent(s, u)
    ensures Consistent(After(s, c), u)
  {
    forall b | b in u.boxes
      ensures BoxConsistent(After(s, c), b)
    {
      if b == c.box.value { OwnBox(s, u, c); } else { OtherBoxUntouched(s, u, c, b); }
    }
  }

  /** No call lowers the cost by more than one. */
  lemma {:induction false} StepLowersByAtMostOne(s: SymbolicState, u: Universe, c: GroundedSkillCall, goal: seq<BoxId>)
    requires IsSymbolic(c) && GroundableAs(c.skill, u, c) && Applicable(s, c) && Consistent(s, u)
    requires Distinct(goal)
    ensures Cost(After(s, c), u, goal) + 1 >= Cost(s, u, goal)
    ensures c.box.value !in goal ==> Cost(After(s, c), u, goal) == Cost(s, u, goal)
  {
    if goal != [] {
      assert goal == [goal[0]] + goal[1..];
      assert forall i :: 0 <= i < |goal[1..]| ==> goal[1..][i] == goal[i + 1];
      assert Distinct(goal[1..]) && goal[0] !in goal[1..];
      StepLowersByAtMostOne(s, u, c, goal[1..]);
      if goal[0] == c.box.value { OwnBox(s, u, c); } else { OtherBoxUntouched(s, u, c, goal[0]); }
    }
  }

  lemma {:induction false} CostZero(s: SymbolicState, u: Universe, goal: seq<BoxId>)
    ensures Cost(s, u, goal) == 0 <==> GoalSet(goal) <= s
  {
    if goal != [] {
      CostZero(s, u, goal[1..]);
      assert goal == [goal[0]] + goal[1..];
      assert GoalSet(goal) == {DeliveredOf(goal[0])} + GoalSet(goal[1..]);
    }
  }

  // ---------------------------------------------------------------------------------------------
  // Whole paths
  // ---------------------------------------------------------------------------------------------

  ghost predicate IsInstance(s: SymbolicState, u: Universe, goal: seq<BoxId>, key: GroundedSkillCall -> string,
    calls: seq<GroundedSkillCall>)
  {
    Consistent(s, u) && ValidInstance(u, goal) && IsGrounding(DOMAIN_IR, u, key, calls)
  }

  ghost function Instance(s: SymbolicState, goal: seq<BoxId>,
    calls: seq<GroundedSkillCall>): Problem<SymbolicState, GroundedSkillCall>
  {
    SkillsAreValid();
    PlanProblem(DOMAIN_IR, s, GoalSet(goal), calls)
  }

  /** Every reachable state stays consistent, so pending and delivered stay complementary in it. */
  lemma {:induction false} ReachableIsConsistent(s: SymbolicState, u: Universe, goal: seq<BoxId>,
    key: GroundedSkillCall -> string, calls: seq<GroundedSkillCall>, path: seq<GroundedSkillCall>)
    requires IsInstance(s, u, goal, key, calls) && Reached(Instance(s, goal, calls), path).Some?
    ensures Consistent(Reached(Instance(s, goal, calls), path).value, u)
    ensures Cost(Reached(Instance(s, goal, calls), path).value, u, goal) + |path| >= Cost(s, u, goal)
    ensures !Solvable(s, u, goal) ==> !Solvable(Reached(Instance(s, goal, calls), path).value, u, goal)
    decreases |path|
  {
    if path != [] {
      ReachableIsConsistent(s, u, goal, key, calls, Init(path));
      var c := Last(path);
      var before := Reached(Instance(s, goal, calls), Init(path)).value;
      GroundableIsSymbolic(u, c);
      TransitionMeans(before, c);
      StepKeepsConsistent(before, u, c);
      StepLowersByAtMostOne(before, u, c, goal);
      if !Solvable(before, u, goal) {
        StepKeepsUnsolvable(before, u, c, goal);
      }
    }
  }

  /** A box that lacks the agents it needs is never delivered. */
  lemma StepKeepsUnsolvable(s: SymbolicState, u: Universe, c: GroundedSkillCall, goal: seq<BoxId>)
    requires IsSymbolic(c) && GroundableAs(c.skill, u, c) && Applicable(s, c) && Consistent(s, u)
    requires ValidInstance(u, goal) && !Solvable(s, u, goal)
    ensures !Solvable(After(s, c), u, goal)
  {
    var b :| b in goal && DeliveredOf(b) !in s && |u.agents| < (if LightOf(b) in s then 1 else 2);
    if b == c.box.value {
      OwnBox(s, u, c);
      PosedBound(s, u, b);
    } else {
      OtherBoxUntouched(s, u, c, b);
    }
  }

  lemma PosedBound(s: SymbolicState, u: Universe, b: BoxId)
    ensures |Posed(s, u, b)| <= |u.agents|
  {
    MemberCount(u.agents);
    SubsetSize(Posed(s, u, b), set a | a in u.agents);
  }

  /** While something is left to deliver and the instance is solvable, some call lowers the cost. */
  lemma SomeStepHelps(s: SymbolicState, u: Universe, goal: seq<BoxId>) returns (c: GroundedSkillCall)
    requires Consistent(s, u) && ValidInstance(u, goal) && Solvable(s, u, goal) && Cost(s, u, goal) > 0
    ensures IsSymbolic(c) && GroundableAs(c.skill, u, c) && Applicable(s, c)
    ensures Cost(After(s, c), u, goal) == Cost(s, u, goal) - 1
    ensures Solvable(After(s, c), u, goal)
  {
    var b := UndeliveredBox(s, u, goal);
    c := HelpfulCall(s, u, b);
    CostChangesBy(s, u, c, goal);
    forall x | x in goal && DeliveredOf(x) !in After(s, c)
      ensures |u.agents| >= (if LightOf(x) in After(s, c) then 1 else 2)
    {
      if x == b { OwnBox(s, u, c); } else { OtherBoxUntouched(s, u, c, x); }
    }
  }

  lemma {:induction false} UndeliveredBox(s: SymbolicState, u: Universe, goal: seq<BoxId>) returns (b: BoxId)
    requires Cost(s, u, goal) > 0
    ensures b in goal && DeliveredOf(b) !in s
  {
    if DeliveredOf(goal[0]) !in s {
      b := goal[0];
    } else {
      b := UndeliveredBox(s, u, goal[1..]);
    }
  }

  lemma {:induction false} CostChangesBy(s: SymbolicState, u: Universe, c: GroundedSkillCall, goal: seq<BoxId>)
    requires IsSymbolic(c) && Distinct(goal)
    requires BoxCost(After(s, c), u, c.box.value) == BoxCost(s, u, c.box.value) - 1
    ensures Cost(After(s, c), u, goal) == Cost(s, u, goal) - (if c.box.value in goal then 1 else 0)
  {
    if goal != [] {
      assert goal == [goal[0]] + goal[1..];
      assert forall i :: 0 <= i < |goal[1..]| ==> goal[1..][i] == goal[i + 1];
      assert Distinct(goal[1..]) && goal[0] !in goal[1..];
      CostChangesBy(s, u, c, goal[1..]);
      if goal[0] != c.box.value { OtherBoxUntouched(s, u, c, goal[0]); }
    }
  }

  /** Pose a missing agent, or push when enough agents are posed. */
  lemma HelpfulCall(s: SymbolicState, u: Universe, b: BoxId) returns (c: GroundedSkillCall)
    requires Consistent(s, u) && ValidUniverse(u) && Distinct(u.agents) && b in u.boxes && DeliveredOf(b) !in s
    requires |u.agents| >= (if LightOf(b) in s then 1 else 2)
    ensures IsSymbolic(c) && GroundableAs(c.skill, u, c) && Applicable(s, c) && c.box == Some(b)
    ensures BoxCost(After(s, c), u, b) == BoxCost(s, u, b) - 1
  {
    if |Posed(s, u, b)| < (if LightOf(b) in s then 1 else 2) {
      c := PoseOneMore(s, u, b);
    } else if LightOf(b) in s {
      c := SinglePush(s, u, b);
    } else {
      c := PairPush(s, u, b);
    }
  }

  lemma PoseOneMore(s: SymbolicState, u: Universe, b: BoxId) returns (c: GroundedSkillCall)
    requires Consistent(s, u) && ValidUniverse(u) && Distinct(u.agents) && b in u.boxes && DeliveredOf(b) !in s
    requires |Posed(s, u, b)| < (if LightOf(b) in s then 1 else 2) <= |u.agents|
    ensures IsSymbolic(c) && GroundableAs(c.skill, u, c) && Applicable(s, c) && c.box == Some(b)
    ensures BoxCost(After(s, c), u, b) == BoxCost(s, u, b) - 1
  {
    var a := UnposedAgent(s, u, b);
    c := Call(GotoPushPose, [a], Some(b), Some(u.zone));
    assert Posed(After(s, c), u, b) == Posed(s, u, b) + {a};
  }

  lemma SinglePush(s: SymbolicState, u: Universe, b: BoxId) returns (c: GroundedSkillCall)
    requires Consistent(s, u) && ValidUniverse(u) && b in u.boxes && DeliveredOf(b) !in s && LightOf(b) in s
    requires |Posed(s, u, b)| >= 1
    ensures IsSymbolic(c) && GroundableAs(c.skill, u, c) && Applicable(s, c) && c.box == Some(b)
    ensures DeliveredOf(b) in After(s, c)
  {
    var a :| a in Posed(s, u, b);
    c := Call(Push, [a], Some(b), Some(u.zone));
  }

  lemma UnposedAgent(s: SymbolicState, u: Universe, b: BoxId) returns (a: AgentId)
    requires |Posed(s, u, b)| < |u.agents| && Distinct(u.agents)
    ensures a in u.agents && a !in Posed(s, u, b)
  {
    MemberCount(u.agents);
    var all := set x | x in u.agents;
    if all <= Posed(s, u, b) { SubsetSize(all, Posed(s, u, b)); assert false; }
    a :| a in all && a !in Posed(s, u, b);
  }

  lemma PairPush(s: SymbolicState, u: Universe, b: BoxId) returns (c: GroundedSkillCall)
    requires Consistent(s, u) && ValidUniverse(u) && b in u.boxes && DeliveredOf(b) !in s && LightOf(b) !in s
    requires |Posed(s, u, b)| >= 2
    ensures IsSymbolic(c) && c.skill == CooperativePush && GroundableAs(c.skill, u, c) && Applicable(s, c)
            && c.box == Some(b)
    ensures DeliveredOf(b) in After(s, c)
  {
    var posed := Posed(s, u, b);
    var a :| a in posed;
    assert |posed - {a}| >= 1;
    var o :| o in posed - {a};
    StringOrder(a, o);
    var pair := CanonicalPair(a, o);
    c := Call(CooperativePush, [pair.0, pair.1], Some(b), Some(u.zone));
  }

  /** A solvable instance has a plan of exactly the cost. */
  lemma {:induction false} PlanOfCostExists(
    s: SymbolicState, u: Universe, goal: seq<BoxId>, key: GroundedSkillCall -> string, calls: seq<GroundedSkillCall>)
    returns (path: seq<GroundedSkillCall>)
    requires IsInstance(s, u, goal, key, calls) && Solvable(s, u, goal)
    ensures IsPlan(Instance(s, goal, calls), path) && |path| == Cost(s, u, goal)
    decreases Cost(s, u, goal)
  {
    CostZero(s, u, goal);
    if Cost(s, u, goal) == 0 {
      path := [];
    } else {
      var c := SomeStepHelps(s, u, goal);
      StepKeepsConsistent(s, u, c);
      var rest := PlanOfCostExists(After(s, c), u, goal, key, calls);
      path := [c] + rest;
      GroundableIsSymbolic(u, c);
      TransitionMeans(s, c);
      ReachedOne(Instance(s, goal, calls), c);
      ReachedCons(Instance(s, goal, calls), c, rest);
    }
  }

  /** No plan is shorter than the cost, and an unsolvable instance has none. */
  lemma PlanCostsAtLeast(s: SymbolicState, u: Universe, goal: seq<BoxId>, key: GroundedSkillCall -> string,
    calls: seq<GroundedSkillCall>, path: seq<GroundedSkillCall>)
    requires IsInstance(s, u, goal, key, calls) && IsPlan(Instance(s, goal, calls), path)
    ensures Solvable(s, u, goal) && |path| >= Cost(s, u, goal)
  {
    ReachableIsConsistent(s, u, goal, key, calls, path);
    var last := Reached(Instance(s, goal, calls), path).value;
    CostZero(last, u, goal);
    assert forall b :: b in goal ==> DeliveredOf(b) in GoalSet(goal);
  }

  /**
    The closed form, from any consistent state: a plan exists exactly when the instance is solvable,
    and then the shortest one has `Cost` calls.
  */
  lemma ClosedForm(s: SymbolicState, u: Universe, goal: seq<BoxId>, key: GroundedSkillCall -> string,
    calls: seq<GroundedSkillCall>)
    requires IsInstance(s, u, goal, key, calls)
    ensures (exists path :: IsPlan(Instance(s, goal, calls), path)) <==> Solvable(s, u, goal)
    ensures forall path :: LeastPlan(Instance(s, goal, calls), path) ==> |path| == Cost(s, u, goal)
  {
    var p := Instance(s, goal, calls);
    forall path | IsPlan(p, path)
      ensures Solvable(s, u, goal) && |path| >= Cost(s, u, goal)
    {
      PlanCostsAtLeast(s, u, goal, key, calls, path);
    }
    if Solvable(s, u, goal) {
      var shortest := PlanOfCostExists(s, u, goal, key, calls);
      assert IsPlan(p, shortest);
    }
  }
}
