/** Grounding universe, grounded calls and the classical planner (symbolic/planner.py). */
module Planner {
  import opened Common
  import opened Skills
  import opened SkillIR
  import opened Snapshots
  import opened Search

  datatype Universe = Universe(agents: seq<AgentId>, boxes: seq<BoxId>, zone: ZoneId)

  predicate ValidUniverse(u: Universe)
  {
    u.zone != "" && forall i :: 0 <= i < |u.agents| ==> u.agents[i] != ""
  }

  /** The snapshot keeps its identities sorted, so reading them off sorts nothing. */
  function FromSnapshot(s: StateSnapshot, zone: ZoneId): (u: Universe)
    requires zone != ""
    ensures ValidUniverse(u) && Distinct(u.agents) && Distinct(u.boxes)
    ensures forall a :: a in u.agents <==> FindAgent(s.agents, a).Some?
    ensures forall b :: b in u.boxes <==> FindBox(s.boxes, b).Some?
  {
    IdsAreDistinct(s);
    Universe(AgentIds(s), BoxIds(s), zone)
  }

  lemma IdsAreDistinct(s: StateSnapshot)
    ensures Distinct(AgentIds(s)) && Distinct(BoxIds(s))
    ensures forall a :: a in AgentIds(s) <==> FindAgent(s.agents, a).Some?
    ensures forall b :: b in BoxIds(s) <==> FindBox(s.boxes, b).Some?
  {
    forall i, j | 0 <= i < j < |s.agents|
      ensures s.agents[i].id != s.agents[j].id
    {
      StringOrder(s.agents[i].id, s.agents[i].id);
    }
    forall a
      ensures a in AgentIds(s) <==> FindAgent(s.agents, a).Some?
    {
      if FindAgent(s.agents, a).Some? {
        var k :| 0 <= k < |s.agents| && s.agents[k] == FindAgent(s.agents, a).value;
        assert AgentIds(s)[k] == a;
      }
    }
    forall b
      ensures b in BoxIds(s) <==> FindBox(s.boxes, b).Some?
    {
      if FindBox(s.boxes, b).Some? {
        var k :| 0 <= k < |s.boxes| && s.boxes[k] == FindBox(s.boxes, b).value;
        assert BoxIds(s)[k] == b;
      }
    }
  }

  // ---------------------------------------------------------------------------------------------
  // Grounded calls
  // ---------------------------------------------------------------------------------------------

  predicate HasSkill(domain: seq<Skill>, name: SkillName)
  {
    exists i :: 0 <= i < |domain| && domain[i].name == name
  }

  /** The calls that exist in a universe: every identity of the call is in it. */
  predicate Groundable(domain: seq<Skill>, u: Universe, c: GroundedSkillCall)
  {
    && HasSkill(domain, c.skill)
    && (forall i :: 0 <= i < |c.agents| ==> c.agents[i] in u.agents)
    && (c.box.Some? ==> c.box.value in u.boxes)
    && (c.zone.Some? ==> c.zone.value == u.zone)
  }

  /** Grounding raises on a skill without a zone slot, and on a pair that names one agent twice. */
  predicate GroundingRaises(domain: seq<Skill>, u: Universe)
  {
    exists i :: 0 <= i < |domain| && SkillRaises(domain[i].name, u)
  }

  predicate SkillRaises(name: SkillName, u: Universe)
  {
    (!TakesBoxAndZone(name) && u.agents != []) || (name == CooperativePush && u.boxes != [] && !IsDistinct(u.agents))
  }

  predicate IsDistinct(agents: seq<AgentId>)
  {
    forall i, j :: 0 <= i < j < |agents| ==> agents[i] != agents[j]
  }

  /** The sort key of a call: its skill's text, then its serialization `key`. */
  predicate CallLess(key: GroundedSkillCall -> string, c: GroundedSkillCall, d: GroundedSkillCall)
  {
    StringLess(SkillText(c.skill), SkillText(d.skill)) ||
    (SkillText(c.skill) == SkillText(d.skill) && StringLess(key(c), key(d)))
  }

  ghost predicate SortedCalls(key: GroundedSkillCall -> string, calls: seq<GroundedSkillCall>)
  {
    forall i, j :: 0 <= i < j < |calls| ==> CallLess(key, calls[i], calls[j])
  }

  /** Alphabetical position of a skill's name. */
  function SkillRank(skill: SkillName): nat
  {
    match skill
    case CooperativePush => 0
    case Explore => 1
    case GotoPushPose => 2
    case Push => 3
    case Wait => 4
  }

  /** Skills by name, and calls of one skill by their keys. */
  lemma CallLessIff(key: GroundedSkillCall -> string, c: GroundedSkillCall, d: GroundedSkillCall)
    ensures CallLess(key, c, d) <==>
            SkillRank(c.skill) < SkillRank(d.skill) || (c.skill == d.skill && StringLess(key(c), key(d)))
  {
    StringLessIff(SkillText(c.skill), SkillText(d.skill));
    StringOrder(SkillText(c.skill), SkillText(d.skill));
  }

  lemma CallOrder(key: GroundedSkillCall -> string, c: GroundedSkillCall, d: GroundedSkillCall)
    requires Faithful(key)
    ensures CallLess(key, c, d) || c == d || CallLess(key, d, c)
    ensures !(CallLess(key, c, d) && CallLess(key, d, c)) && !CallLess(key, c, c)
  {
    StringOrder(SkillText(c.skill), SkillText(d.skill));
    StringOrder(SkillText(c.skill), SkillText(c.skill));
    StringOrder(key(c), key(d));
    StringOrder(key(c), key(c));
  }

  lemma CallLessTransitive(key: GroundedSkillCall -> string, c: GroundedSkillCall, d: GroundedSkillCall,
    e: GroundedSkillCall)
    requires CallLess(key, c, d) && CallLess(key, d, e)
    ensures CallLess(key, c, e)
  {
    if StringLess(SkillText(c.skill), SkillText(d.skill)) && StringLess(SkillText(d.skill), SkillText(e.skill)) {
      StringLessTransitive(SkillText(c.skill), SkillText(d.skill), SkillText(e.skill));
    } else if SkillText(c.skill) == SkillText(d.skill) == SkillText(e.skill) {
      StringLessTransitive(key(c), key(d), key(e));
    }
  }

  /** What `ground_calls` must return: the groundable calls, each once, in the sorted order. */
  ghost predicate IsGrounding(domain: seq<Skill>, u: Universe, key: GroundedSkillCall -> string,
    calls: seq<GroundedSkillCall>)
  {
    SortedCalls(key, calls) && forall c :: c in calls <==> Groundable(domain, u, c)
  }

  /** The sorted order leaves no choice: the same universe always grounds to the same sequence. */
  lemma {:induction false} SortedIsUnique(
    key: GroundedSkillCall -> string, calls: seq<GroundedSkillCall>, others: seq<GroundedSkillCall>)
    requires Faithful(key) && SortedCalls(key, calls) && SortedCalls(key, others)
    requires forall c :: c in calls <==> c in others
    ensures calls == others
  {
    if calls == [] {
      if others != [] {
        HeadIsMember(others);
        assert false;
      }
    } else {
      assert calls[0] in others;
      assert others[0] in calls;
      var i :| 0 <= i < |others| && others[i] == calls[0];
      var k :| 0 <= k < |calls| && calls[k] == others[0];
      CallOrder(key, calls[0], others[0]);
      assert calls[0] == others[0];
      forall c
        ensures c in calls[1..] <==> c in others[1..]
      {
        TailMembers(key, calls, c);
        TailMembers(key, others, c);
      }
      SortedIsUnique(key, calls[1..], others[1..]);
    }
  }

  lemma HeadIsMember(calls: seq<GroundedSkillCall>)
    requires calls != []
    ensures calls[0] in calls
  {
  }

  lemma TailMembers(key: GroundedSkillCall -> string, calls: seq<GroundedSkillCall>, c: GroundedSkillCall)
    requires Faithful(key) && SortedCalls(key, calls) && calls != []
    ensures c in calls[1..] <==> c in calls && c != calls[0]
  {
    if c in calls[1..] {
      var i :| 0 <= i < |calls[1..]| && calls[1..][i] == c;
      assert CallLess(key, calls[0], calls[i + 1]);
      CallOrder(key, c, c);
    }
  }

  /** The library sort, as insertion into a sorted sequence. */
  function InsertCall(key: GroundedSkillCall -> string, c: GroundedSkillCall,
    sorted: seq<GroundedSkillCall>): seq<GroundedSkillCall>
  {
    if sorted == [] || CallLess(key, c, sorted[0]) then [c] + sorted
    else [sorted[0]] + InsertCall(key, c, sorted[1..])
  }

  lemma {:induction false} InsertKeepsSorted(key: GroundedSkillCall -> string, c: GroundedSkillCall,
    sorted: seq<GroundedSkillCall>)
    requires Faithful(key) && SortedCalls(key, sorted) && c !in sorted
    ensures SortedCalls(key, InsertCall(key, c, sorted))
    ensures forall d :: d in InsertCall(key, c, sorted) <==> d == c || d in sorted
  {
    var r := InsertCall(key, c, sorted);
    if sorted == [] {
    } else if CallLess(key, c, sorted[0]) {
      forall j | 0 <= j < |sorted|
        ensures CallLess(key, c, sorted[j])
      {
        if j > 0 { CallLessTransitive(key, c, sorted[0], sorted[j]); }
      }
    } else {
      var tail := InsertCall(key, c, sorted[1..]);
      InsertKeepsSorted(key, c, sorted[1..]);
      CallOrder(key, c, sorted[0]);
      forall j | 0 <= j < |tail|
        ensures CallLess(key, sorted[0], tail[j])
      {
        assert tail[j] in tail;
      }
      assert sorted == [sorted[0]] + sorted[1..];
    }
  }

  function SortCalls(key: GroundedSkillCall -> string, calls: seq<GroundedSkillCall>): seq<GroundedSkillCall>
  {
    if calls == [] then [] else InsertCall(key, calls[0], SortCalls(key, calls[1..]))
  }

  lemma {:induction false} SortIsSorted(key: GroundedSkillCall -> string, calls: seq<GroundedSkillCall>)
    requires Faithful(key) && Distinct(calls)
    ensures SortedCalls(key, SortCalls(key, calls))
    ensures forall c :: c in SortCalls(key, calls) <==> c in calls
  {
    if calls != [] {
      SortIsSorted(key, calls[1..]);
      assert forall i :: 0 <= i < |calls[1..]| ==> calls[1..][i] == calls[i + 1];
      assert calls[0] !in calls[1..];
      InsertKeepsSorted(key, calls[0], SortCalls(key, calls[1..]));
      assert calls == [calls[0]] + calls[1..];
    }
  }

  /** The agent tuples a skill is grounded over: single agents, or ordered pairs of positions. */
  predicate IsChoice(name: SkillName, agents: seq<AgentId>, choice: seq<AgentId>)
  {
    if AgentCount(name) == 2 then
      exists i, j :: 0 <= i < |agents| && 0 <= j < |agents| && i != j && choice == [agents[i], agents[j]]
    else exists i :: 0 <= i < |agents| && choice == [agents[i]]
  }

  method AgentChoices(name: SkillName, agents: seq<AgentId>) returns (choices: seq<seq<AgentId>>)
    ensures forall choice :: choice in choices <==> IsChoice(name, agents, choice)
  {
    choices := [];
    if AgentCount(name) == 2 {
      for i := 0 to |agents|
        invariant forall choice :: choice in choices <==>
          exists m, n :: 0 <= m < i && 0 <= n < |agents| && m != n && choice == [agents[m], agents[n]]
      {
        ghost var outer := choices;
        for j := 0 to |agents|
          invariant forall choice :: choice in choices <==>
            (choice in outer || exists n :: 0 <= n < j && i != n && choice == [agents[i], agents[n]])
        {
          if i != j {
            choices := choices + [[agents[i], agents[j]]];
          }
        }
      }
    } else {
      for i := 0 to |agents|
        invariant forall choice :: choice in choices <==> exists m :: 0 <= m < i && choice == [agents[m]]
      {
        choices := choices + [[agents[i]]];
      }
    }
  }

  /** The constructor applied to one agent tuple, one box slot and the universe's zone. */
  function Construct(name: SkillName, u: Universe, choice: seq<AgentId>, box: Option<BoxId>): Option<GroundedSkillCall>
    requires ValidUniverse(u)
  {
    if forall k :: 0 <= k < |choice| ==> choice[k] != "" then MakeCall(name, choice, box, Some(u.zone)) else None
  }

  predicate GroundableAs(name: SkillName, u: Universe, c: GroundedSkillCall)
  {
    && c.skill == name
    && (forall i :: 0 <= i < |c.agents| ==> c.agents[i] in u.agents)
    && (c.box.Some? ==> c.box.value in u.boxes)
    && (c.zone.Some? ==> c.zone.value == u.zone)
  }

  function BoxChoices(name: SkillName, u: Universe): seq<Option<BoxId>>
  {
    if TakesBoxAndZone(name) then seq(|u.boxes|, i requires 0 <= i < |u.boxes| => Some(u.boxes[i])) else [None]
  }

  lemma ConstructedIsGroundable(name: SkillName, u: Universe, choice: seq<AgentId>, box: Option<BoxId>)
    requires ValidUniverse(u) && IsChoice(name, u.agents, choice) && box in BoxChoices(name, u)
    ensures Construct(name, u, choice, box).None? ==> SkillRaises(name, u)
    ensures Construct(name, u, choice, box).Some? ==> GroundableAs(name, u, Construct(name, u, choice, box).value)
  {
  }

  /** Every groundable call comes out of one of the tuples and boxes the loops run through. */
  lemma GroundableIsConstructed(name: SkillName, u: Universe, c: GroundedSkillCall)
    requires ValidUniverse(u) && GroundableAs(name, u, c) && TakesBoxAndZone(name)
    ensures IsChoice(name, u.agents, c.agents) && c.box in BoxChoices(name, u)
    ensures Construct(name, u, c.agents, c.box) == Some(c)
  {
    if name == CooperativePush {
      StringOrder(c.agents[0], c.agents[0]);
      assert c.agents == [c.agents[0], c.agents[1]];
    } else {
      assert c.agents == [c.agents[0]];
    }
    var k :| 0 <= k < |u.boxes| && u.boxes[k] == c.box.value;
    assert BoxChoices(name, u)[k] == c.box;
  }

  lemma WithoutZoneRaises(name: SkillName, u: Universe, c: GroundedSkillCall)
    requires GroundableAs(name, u, c) && !TakesBoxAndZone(name)
    ensures SkillRaises(name, u)
  {
    assert c.agents[0] in u.agents;
  }

  /** When grounding a skill raises, some tuple and box that the loops reach is rejected. */
  lemma RaisingIsReached(name: SkillName, u: Universe) returns (choice: seq<AgentId>, box: Option<BoxId>)
    requires ValidUniverse(u) && SkillRaises(name, u)
    ensures IsChoice(name, u.agents, choice) && box in BoxChoices(name, u) && Construct(name, u, choice, box).None?
  {
    if TakesBoxAndZone(name) {
      var i, j :| 0 <= i < j < |u.agents| && u.agents[i] == u.agents[j];
      choice, box := [u.agents[i], u.agents[j]], Some(u.boxes[0]);
      assert BoxChoices(name, u)[0] == box;
    } else {
      choice, box := [u.agents[0]], None;
    }
  }

  /** Ground one skill, collapsing the two orders of a pair into one call. */
  method GroundSkill(name: SkillName, u: Universe, before: seq<GroundedSkillCall>)
    returns (r: Option<seq<GroundedSkillCall>>)
    requires ValidUniverse(u) && Distinct(before)
    ensures r.None? <==> SkillRaises(name, u)
    ensures r.Some? ==> Distinct(r.value)
    ensures r.Some? ==> forall c :: c in r.value <==> c in before || GroundableAs(name, u, c)
  {
    var choices := AgentChoices(name, u.agents);
    var boxes := BoxChoices(name, u);
    var calls := before;
    for i := 0 to |choices|
      invariant Distinct(calls) && before <= calls
      invariant forall c :: c in calls ==> c in before || GroundableAs(name, u, c)
      invariant forall m, k :: 0 <= m < i && 0 <= k < |boxes| ==>
        Construct(name, u, choices[m], boxes[k]).Some? && Construct(name, u, choices[m], boxes[k]).value in calls
    {
      assert choices[i] in choices;
      for j := 0 to |boxes|
        invariant Distinct(calls) && before <= calls
        invariant forall c :: c in calls ==> c in before || GroundableAs(name, u, c)
        invariant forall m, k :: 0 <= m < i && 0 <= k < |boxes| ==>
          Construct(name, u, choices[m], boxes[k]).Some? && Construct(name, u, choices[m], boxes[k]).value in calls
        invariant forall k :: 0 <= k < j ==>
          Construct(name, u, choices[i], boxes[k]).Some? && Construct(name, u, choices[i], boxes[k]).value in calls
      {
        var made := Construct(name, u, choices[i], boxes[j]);
        ConstructedIsGroundable(name, u, choices[i], boxes[j]);
        if made.None? {
          return None;
        }
        if made.value !in calls {
          calls := calls + [made.value];
        }
      }
    }
    if SkillRaises(name, u) {
      ghost var choice, box := RaisingIsReached(name, u);
      assert false;
    }
    forall c | GroundableAs(name, u, c)
      ensures c in calls
    {
      if TakesBoxAndZone(name) {
        GroundableIsConstructed(name, u, c);
        assert c.agents in choices;
      } else {
        WithoutZoneRaises(name, u, c);
      }
    }
    return Some(calls);
  }

  lemma GroundableSplit(domain: seq<Skill>, i: nat, u: Universe, c: GroundedSkillCall)
    requires i < |domain|
    ensures Groundable(domain[..i + 1], u, c) <==> Groundable(domain[..i], u, c) || GroundableAs(domain[i].name, u, c)
  {
    var longer := domain[..i + 1];
    assert longer[i] == domain[i];
    assert forall k :: 0 <= k < i ==> longer[k] == domain[..i][k];
  }

  /** `None` where the source raises, which its caller turns into a planner failure. */
  method GroundCalls(domain: seq<Skill>, u: Universe, key: GroundedSkillCall -> string)
    returns (r: Option<seq<GroundedSkillCall>>)
    requires ValidUniverse(u) && Faithful(key)
    ensures r.None? <==> GroundingRaises(domain, u)
    ensures r.Some? ==> IsGrounding(domain, u, key, r.value)
  {
    var calls := [];
    for i := 0 to |domain|
      invariant Distinct(calls)
      invariant forall c :: c in calls <==> Groundable(domain[..i], u, c)
      invariant forall k :: 0 <= k < i ==> !SkillRaises(domain[k].name, u)
    {
      var part := GroundSkill(domain[i].name, u, calls);
      if part.None? {
        return None;
      }
      forall c
        ensures c in part.value <==> Groundable(domain[..i + 1], u, c)
      {
        GroundableSplit(domain, i, u, c);
      }
      calls := part.value;
    }
    assert domain[..|domain|] == domain;
    SortIsSorted(key, calls);
    return Some(SortCalls(key, calls));
  }

  // ---------------------------------------------------------------------------------------------
  // The planner
  // ---------------------------------------------------------------------------------------------

  /** Expansion is declarative: applicability of literals and application of effects, nothing else. */
  function Transition(domain: seq<Skill>, state: SymbolicState, c: GroundedSkillCall): Expansion<SymbolicState>
    requires ValidDomain(domain)
  {
    if Evaluate(domain, state, c).ValidatedCall?
    then Successor(Apply(state, GroundEffects(Resolve(domain, c.skill).value, c)))
    else Inapplicable
  }

  function PlanProblem(domain: seq<Skill>, state: SymbolicState, goal: set<Literal>,
    calls: seq<GroundedSkillCall>): Problem<SymbolicState, GroundedSkillCall>
    requires ValidDomain(domain)
  {
    Problem(state, calls, (s: SymbolicState) => goal <= s,
      (s: SymbolicState, c: GroundedSkillCall) => Transition(domain, s, c))
  }

  function StateKey(s: SymbolicState): SymbolicState
  {
    s
  }

  /** The planner's whole promise, for the one grounding that exists. */
  ghost predicate PlannerCorrect(domain: seq<Skill>, state: SymbolicState, goal: set<Literal>, u: Universe,
    key: GroundedSkillCall -> string, budget: int, r: PlannerResult<GroundedSkillCall>)
    requires ValidDomain(domain)
  {
    if goal <= state then r == PlanFound([])
    else if GroundingRaises(domain, u) then r == PlannerFailure(false)
    else
      && r != PlannerFailure(false)
      && forall calls :: IsGrounding(domain, u, key, calls) ==>
          Correct(PlanProblem(domain, state, goal, calls), StateKey, budget, r)
  }

  /** And what it costs: the node budget is charged per expanded state, and exactly the states the search needs. */
  ghost predicate PlannerEconomical(domain: seq<Skill>, state: SymbolicState, goal: set<Literal>, u: Universe,
    key: GroundedSkillCall -> string, budget: int, r: PlannerResult<GroundedSkillCall>)
    requires ValidDomain(domain)
  {
    goal <= state || GroundingRaises(domain, u) ||
    forall calls :: IsGrounding(domain, u, key, calls) ==>
      Economical(PlanProblem(domain, state, goal, calls), StateKey, budget, r)
  }

  lemma PlanNeverRaises(domain: seq<Skill>, state: SymbolicState, goal: set<Literal>, calls: seq<GroundedSkillCall>)
    requires ValidDomain(domain)
    ensures !MayRaise(PlanProblem(domain, state, goal, calls))
  {
  }

  method Plan(domain: seq<Skill>, state: SymbolicState, goal: set<Literal>, u: Universe,
    key: GroundedSkillCall -> string, budget: int)
    returns (r: PlannerResult<GroundedSkillCall>)
    requires ValidDomain(domain) && ValidUniverse(u) && Faithful(key)
    ensures PlannerCorrect(domain, state, goal, u, key, budget, r)
    ensures PlannerEconomical(domain, state, goal, u, key, budget, r)
  {
    if goal <= state {
      return PlanFound([]);
    }
    var grounded := GroundCalls(domain, u, key);
    if grounded.None? {
      return PlannerFailure(false);
    }
    var p := PlanProblem(domain, state, goal, grounded.value);
    r := BreadthFirst(p, StateKey, budget);
    PlanNeverRaises(domain, state, goal, grounded.value);
    forall calls | IsGrounding(domain, u, key, calls)
      ensures calls == grounded.value
    {
      SortedIsUnique(key, calls, grounded.value);
    }
  }
}
