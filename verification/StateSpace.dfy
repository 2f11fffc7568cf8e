/**
  The space a classical planner searches is finite, for every domain (symbolic/planner.py): only the
  literals that some effect mentions can change, so there are at most two to their number of states.
*/
module StateSpace {
  import opened Common
  import opened Skills
  import opened SkillIR
  import opened Search
  import opened Planner

  // ---------------------------------------------------------------------------------------------
  // Families of literal sets
  // ---------------------------------------------------------------------------------------------

  ghost function JoinEach(family: set<set<Literal>>, extra: set<Literal>): set<set<Literal>>
  {
    set x | x in family :: extra + x
  }

  lemma {:induction false} JoinEachSize(family: set<set<Literal>>, extra: set<Literal>)
    ensures |JoinEach(family, extra)| <= |family|
  {
    if family != {} {
      var x :| x in family;
      JoinEachSize(family - {x}, extra);
      assert JoinEach(family, extra) == JoinEach(family - {x}, extra) + {extra + x};
    }
  }

  ghost function Subsets(fluents: seq<Literal>): set<set<Literal>>
  {
    if fluents == [] then {{}}
    else Subsets(fluents[1..]) + JoinEach(Subsets(fluents[1..]), {fluents[0]})
  }

  ghost function Power(n: nat): nat
  {
    if n == 0 then 1 else 2 * Power(n - 1)
  }

  lemma {:induction false} PowerMonotone(m: nat, n: nat)
    requires m <= n
    ensures Power(m) <= Power(n)
  {
    if m < n { PowerMonotone(m, n - 1); }
  }

  lemma {:induction false} SubsetsCount(fluents: seq<Literal>)
    ensures |Subsets(fluents)| <= Power(|fluents|)
  {
    if fluents != [] {
      SubsetsCount(fluents[1..]);
      JoinEachSize(Subsets(fluents[1..]), {fluents[0]});
    }
  }

  lemma {:induction false} SubsetIsListed(fluents: seq<Literal>, y: set<Literal>)
    requires forall l :: l in y ==> l in fluents
    ensures y in Subsets(fluents)
  {
    if fluents == [] {
      assert y == {};
    } else {
      assert fluents == [fluents[0]] + fluents[1..];
      SubsetIsListed(fluents[1..], y - {fluents[0]});
      assert fluents[0] in y ==> y == {fluents[0]} + (y - {fluents[0]});
      assert fluents[0] !in y ==> y == y - {fluents[0]};
    }
  }

  // ---------------------------------------------------------------------------------------------
  // What planning can change
  // ---------------------------------------------------------------------------------------------

  /** The literals the effects of one call mention. */
  ghost function Mentioned(domain: seq<Skill>, c: GroundedSkillCall): set<Literal>
    requires ValidDomain(domain)
  {
    match Resolve(domain, c.skill)
    case None => {}
    case Some(ir) => Added(GroundEffects(ir, c)) + Deleted(GroundEffects(ir, c))
  }

  /** The literals that some call of the sequence mentions. */
  ghost function Touched(domain: seq<Skill>, calls: seq<GroundedSkillCall>): set<Literal>
    requires ValidDomain(domain)
  {
    if calls == [] then {} else Mentioned(domain, calls[0]) + Touched(domain, calls[1..])
  }

  lemma {:induction false} TouchedMembers(domain: seq<Skill>, calls: seq<GroundedSkillCall>, c: GroundedSkillCall)
    requires ValidDomain(domain) && c in calls
    ensures Mentioned(domain, c) <= Touched(domain, calls)
  {
    if calls[0] != c { TouchedMembers(domain, calls[1..], c); }
  }

  /** The sequence lists every literal that some candidate call mentions. */
  ghost predicate Lists(domain: seq<Skill>, calls: seq<GroundedSkillCall>, fluents: seq<Literal>)
    requires ValidDomain(domain)
  {
    forall c, l :: c in calls && l in Mentioned(domain, c) ==> l in fluents
  }

  ghost predicate SameOutside(fluents: seq<Literal>, s: SymbolicState, t: SymbolicState)
  {
    forall l :: l !in fluents ==> (l in s <==> l in t)
  }

  lemma StepKeepsOutside(domain: seq<Skill>, s: SymbolicState, calls: seq<GroundedSkillCall>, c: GroundedSkillCall,
    fluents: seq<Literal>)
    requires ValidDomain(domain) && Lists(domain, calls, fluents) && c in calls
    requires Transition(domain, s, c).Successor?
    ensures SameOutside(fluents, s, Transition(domain, s, c).state)
  {
    var e := GroundEffects(Resolve(domain, c.skill).value, c);
    forall l | l !in fluents
      ensures l in s <==> l in Apply(s, e)
    {
      assert l !in Mentioned(domain, c);
      assert forall i :: 0 <= i < |e| ==> e[i].literal in Mentioned(domain, c);
      LastMentionDecides(s, e, l);
    }
  }

  /** Every reachable state agrees with the start on all other literals. */
  lemma {:induction false} ReachableKeepsOutside(domain: seq<Skill>, s: SymbolicState, goal: set<Literal>,
    calls: seq<GroundedSkillCall>, fluents: seq<Literal>, path: seq<GroundedSkillCall>)
    requires ValidDomain(domain) && Lists(domain, calls, fluents)
    requires Reached(PlanProblem(domain, s, goal, calls), path).Some?
    ensures SameOutside(fluents, s, Reached(PlanProblem(domain, s, goal, calls), path).value)
    decreases |path|
  {
    if path != [] {
      ReachableKeepsOutside(domain, s, goal, calls, fluents, Init(path));
      StepKeepsOutside(domain, Reached(PlanProblem(domain, s, goal, calls), Init(path)).value,
        calls, Last(path), fluents);
    }
  }

  /** The states that agree with `s` outside the fluents. */
  ghost function Space(s: SymbolicState, fluents: seq<Literal>): set<SymbolicState>
  {
    JoinEach(Subsets(fluents), set l | l in s && l !in fluents)
  }

  lemma InSpace(s: SymbolicState, fluents: seq<Literal>, t: SymbolicState)
    requires SameOutside(fluents, s, t)
    ensures t in Space(s, fluents)
  {
    var x := set l | l in t && l in fluents;
    SubsetIsListed(fluents, x);
    assert t == (set l | l in s && l !in fluents) + x;
  }

  lemma SpaceIsFinite(s: SymbolicState, fluents: seq<Literal>)
    ensures |Space(s, fluents)| <= Power(|fluents|)
  {
    SubsetsCount(fluents);
    JoinEachSize(Subsets(fluents), set l | l in s && l !in fluents);
  }

  /** Whatever lists the touched literals bounds the search: all it can reach lies in this finite space. */
  lemma SpaceCovers(domain: seq<Skill>, s: SymbolicState, goal: set<Literal>, calls: seq<GroundedSkillCall>,
    fluents: seq<Literal>)
    requires ValidDomain(domain) && Lists(domain, calls, fluents)
    ensures Covers(PlanProblem(domain, s, goal, calls), StateKey, Space(s, fluents))
    ensures |Space(s, fluents)| <= Power(|fluents|)
  {
    var p := PlanProblem(domain, s, goal, calls);
    forall path | Reached(p, path).Some?
      ensures StateKey(Reached(p, path).value) in Space(s, fluents)
    {
      ReachableKeepsOutside(domain, s, goal, calls, fluents, path);
      InSpace(s, fluents, Reached(p, path).value);
    }
    SpaceIsFinite(s, fluents);
  }

  /**
    So for every domain, state, goal and universe a node budget of two to the number of touched
    literals is adequate: the planner never times out, and its answer is the exact one.
  */
  lemma AdequateBudget(domain: seq<Skill>, s: SymbolicState, goal: set<Literal>, u: Universe,
    key: GroundedSkillCall -> string, calls: seq<GroundedSkillCall>, budget: int, r: PlannerResult<GroundedSkillCall>)
    requires ValidDomain(domain) && !GroundingRaises(domain, u) && IsGrounding(domain, u, key, calls)
    requires PlannerCorrect(domain, s, goal, u, key, budget, r) && Power(|Touched(domain, calls)|) <= budget
    ensures r == ExactAnswer(PlanProblem(domain, s, goal, calls))
  {
    forall c, l | c in calls && l in Mentioned(domain, c)
      ensures l in Touched(domain, calls)
    {
      TouchedMembers(domain, calls, c);
    }
    var fluents := Enumerate(Touched(domain, calls));
    AdequateFor(domain, s, goal, u, key, calls, fluents, budget, r);
  }

  /** The same for every sequence that lists the touched literals, such as one read off the domain by hand. */
  lemma AdequateFor(domain: seq<Skill>, s: SymbolicState, goal: set<Literal>, u: Universe,
    key: GroundedSkillCall -> string, calls: seq<GroundedSkillCall>, fluents: seq<Literal>, budget: int,
    r: PlannerResult<GroundedSkillCall>)
    requires ValidDomain(domain) && !GroundingRaises(domain, u) && IsGrounding(domain, u, key, calls)
    requires Lists(domain, calls, fluents) && Power(|fluents|) <= budget
    requires PlannerCorrect(domain, s, goal, u, key, budget, r)
    ensures r == ExactAnswer(PlanProblem(domain, s, goal, calls))
  {
    hide Mentioned, Space;
    var p := PlanProblem(domain, s, goal, calls);
    if goal <= s {
      assert IsPlan(p, []);
      LeastPlanUnique(p, [], ExactAnswer(p).plan);
    } else {
      SpaceCovers(domain, s, goal, calls, fluents);
      PlanNeverRaises(domain, s, goal, calls);
      AdequateBudgetIsExact(p, StateKey, budget, Space(s, fluents), r);
      AnswerIsUnique(p, StateKey, budget, r);
    }
  }
}
