/**
  Deterministic breadth-first planning (symbolic/planner.py and kit/planning.py).

  Both planners run the same loop text: pop, charge the node budget, expand the grounded calls in
  order, skip keys already seen, test the goal when a state is generated. They differ only in where
  the calls, the transition and the visited key come from, so one method models both loops and the
  two callers instantiate `Problem` and `key`. A visited key that the source computes as a digest is
  an abstract function `key`; theorems that need it to tell states apart say `Faithful(key)`.
*/
module Search {
  import opened Common

  /** One attempt to expand a state by a call. `Raised` is a callback that raised an exception. */
  datatype Expansion<+S> = Inapplicable | Successor(state: S) | Raised

  /** Exactly one of the three planner answers. */
  datatype PlannerResult<+C> = PlanFound(plan: seq<C>) | NoPlan | PlannerFailure(timedOut: bool)

  datatype Problem<!S, !C> = Problem(start: S, calls: seq<C>, goal: S -> bool, next: (S, C) -> Expansion<S>)

  datatype Node<+S, +C> = Node(state: S, path: seq<C>)

  // ---------------------------------------------------------------------------------------------
  // What a plan is, independently of how it is searched for
  // ---------------------------------------------------------------------------------------------

  /** The state a call sequence leads to, if every call of it is a candidate and applicable. */
  ghost function Reached<S, C>(p: Problem<S, C>, path: seq<C>): Option<S>
    decreases |path|
  {
    if path == [] then Some(p.start)
    else
      var before := Reached(p, Init(path));
      if before.None? || Last(path) !in p.calls then None
      else match p.next(before.value, Last(path))
        case Successor(t) => Some(t)
        case _ => None
  }

  ghost predicate IsPlan<S, C>(p: Problem<S, C>, path: seq<C>)
  {
    Reached(p, path).Some? && p.goal(Reached(p, path).value)
  }

  /** Position of the first occurrence of a call in the candidate order. */
  ghost function Rank<C>(calls: seq<C>, c: C): (r: nat)
    ensures r <= |calls| && (c in calls <==> r < |calls|)
    ensures r < |calls| ==> calls[r] == c
    ensures forall i :: 0 <= i < r ==> calls[i] != c
  {
    if calls == [] || calls[0] == c then 0 else 1 + Rank(calls[1..], c)
  }

  /** Shorter first; equally long sequences by the first call in which they differ. */
  ghost predicate Less<C>(calls: seq<C>, p: seq<C>, q: seq<C>)
  {
    || |p| < |q|
    || (|p| == |q| && exists k :: 0 <= k < |p| && FirstDifference(calls, p, q, k))
  }

  ghost predicate FirstDifference<C>(calls: seq<C>, p: seq<C>, q: seq<C>, k: nat)
    requires k < |p| == |q|
  {
    p[..k] == q[..k] && Rank(calls, p[k]) < Rank(calls, q[k])
  }

  ghost predicate Leq<C>(calls: seq<C>, p: seq<C>, q: seq<C>)
  {
    p == q || Less(calls, p, q)
  }

  /** The plan both planners promise: a plan that precedes every other plan. */
  ghost predicate LeastPlan<S, C(!new)>(p: Problem<S, C>, plan: seq<C>)
  {
    IsPlan(p, plan) && forall other :: IsPlan(p, other) ==> Leq(p.calls, plan, other)
  }

  ghost predicate Faithful<S(!new), K>(key: S -> K)
  {
    forall s, t :: key(s) == key(t) ==> s == t
  }

  /** `space` contains the key of every reachable state. */
  ghost predicate Covers<S, C(!new), K>(p: Problem<S, C>, key: S -> K, space: set<K>)
  {
    forall path :: Reached(p, path).Some? ==> key(Reached(p, path).value) in space
  }

  ghost predicate MayRaise<S, C(!new)>(p: Problem<S, C>)
  {
    exists path, c :: Reached(p, path).Some? && c in p.calls && p.next(Reached(p, path).value, c).Raised?
  }

  /** What each of the three answers means. */
  ghost predicate Correct<S, C(!new), K(!new)>(p: Problem<S, C>, key: S -> K, budget: int, r: PlannerResult<C>)
  {
    match r
    case PlanFound(plan) => LeastPlan(p, plan)
    case NoPlan => forall path :: !IsPlan(p, path)
    case PlannerFailure(true) => forall space | Covers(p, key, space) :: |space| > budget
    case PlannerFailure(false) => MayRaise(p)
  }

  /** `space` contains the key of every state reached by a path that is no later than `bound`. */
  ghost predicate CoversUpTo<S, C(!new), K>(p: Problem<S, C>, key: S -> K, space: set<K>, bound: seq<C>)
  {
    forall path :: Reached(p, path).Some? && Leq(p.calls, path, bound) ==> key(Reached(p, path).value) in space
  }

  /** Trying this call after this path raises. */
  ghost predicate RaisesAt<S, C>(p: Problem<S, C>, path: seq<C>, c: C)
  {
    Reached(p, path).Some? && c in p.calls && p.next(Reached(p, path).value, c).Raised?
  }

  /**
    What each answer costs: a plan was found within the budget, which the states up to the one before its
    last call do not exceed; an exhausted search fits all reachable states into it; a timeout means that the
    states up to there exceed it for every plan. And no answer passes over a raise: one that comes no later
    than every plan is the answer.
  */
  ghost predicate Economical<S, C(!new), K(!new)>(p: Problem<S, C>, key: S -> K, budget: int, r: PlannerResult<C>)
  {
    match r
    case PlanFound(plan) =>
      plan == [] ||
      ((exists space :: CoversUpTo(p, key, space, Init(plan)) && |space| <= budget)
       && forall path, c :: RaisesAt(p, path, c) ==> !Leq(p.calls, path + [c], plan))
    case NoPlan => p.calls == [] || ((exists space :: Covers(p, key, space) && |space| <= budget) && !MayRaise(p))
    case PlannerFailure(true) =>
      forall plan, space | plan != [] && IsPlan(p, plan) && CoversUpTo(p, key, space, Init(plan)) :: |space| > budget
    case PlannerFailure(false) =>
      exists path, c :: RaisesAt(p, path, c) && forall plan :: IsPlan(p, plan) ==> Leq(p.calls, path + [c], plan)
  }

  // ---------------------------------------------------------------------------------------------
  // The order on call sequences
  // ---------------------------------------------------------------------------------------------

  lemma LessTransitive<C>(calls: seq<C>, p: seq<C>, q: seq<C>, r: seq<C>)
    requires Less(calls, p, q) && Less(calls, q, r)
    ensures Less(calls, p, r)
  {
    if |p| == |q| == |r| {
      var k :| 0 <= k < |p| && FirstDifference(calls, p, q, k);
      var m :| 0 <= m < |q| && FirstDifference(calls, q, r, m);
      var n := if k < m then k else m;
      assert p[..n] == p[..k][..n] == q[..k][..n] == q[..n] == q[..m][..n] == r[..m][..n] == r[..n];
      assert n < k ==> p[n] == p[..k][n] == q[..k][n] == q[n];
      assert n < m ==> q[n] == q[..m][n] == r[..m][n] == r[n];
      assert FirstDifference(calls, p, r, n);
    }
  }

  lemma LessIrreflexive<C>(calls: seq<C>, p: seq<C>)
    ensures !Less(calls, p, p)
  {
  }

  /** Appending calls never reverses a strict comparison. */
  lemma LessAppend<C>(calls: seq<C>, p: seq<C>, q: seq<C>, a: C, b: C)
    requires Less(calls, p, q)
    ensures Less(calls, p + [a], q + [b])
  {
    if |p| == |q| {
      var k :| 0 <= k < |p| && FirstDifference(calls, p, q, k);
      assert (p + [a])[..k] == p[..k] && (q + [b])[..k] == q[..k];
      assert FirstDifference(calls, p + [a], q + [b], k);
    }
  }

  lemma LessLast<C>(calls: seq<C>, p: seq<C>, a: C, b: C)
    requires Rank(calls, a) < Rank(calls, b)
    ensures Less(calls, p + [a], p + [b])
  {
    assert (p + [a])[..|p|] == p == (p + [b])[..|p|];
    assert FirstDifference(calls, p + [a], p + [b], |p|);
  }

  /** Two least plans are the same plan, so the answer `PlanFound` is determined by the problem. */
  lemma LeastPlanUnique<S, C(!new)>(p: Problem<S, C>, plan: seq<C>, other: seq<C>)
    requires LeastPlan(p, plan) && LeastPlan(p, other)
    ensures plan == other
  {
    if plan != other {
      LessTransitive(p.calls, plan, other, plan);
      LessIrreflexive(p.calls, plan);
    }
  }

  // ---------------------------------------------------------------------------------------------
  // Paths and their suffixes
  // ---------------------------------------------------------------------------------------------

  /** Running `[c] + rest` is running `rest` from the successor of the start under `c`. */
  lemma {:induction false} ReachedCons<S, C>(p: Problem<S, C>, c: C, rest: seq<C>)
    ensures Reached(p, [c] + rest) ==
            match Reached(p, [c])
            case None => None
            case Some(t) => Reached(p.(start := t), rest)
    decreases |rest|
  {
    var path := [c] + rest;
    if rest == [] {
      assert path == [c];
    } else {
      assert Init(path) == [c] + Init(rest);
      assert Last(path) == Last(rest);
      ReachedCons(p, c, Init(rest));
    }
  }

  lemma ReachedOne<S, C>(p: Problem<S, C>, c: C)
    ensures Reached(p, [c]) ==
            if c in p.calls && p.next(p.start, c).Successor? then Some(p.next(p.start, c).state) else None
  {
    assert Init([c]) == [];
    assert Reached(p, Init([c])) == Some(p.start);
  }

  /** The head of a shortest plan leads to a state whose shortest plans are exactly one call shorter. */
  lemma TailIsShortest<S, C(!new)>(p: Problem<S, C>, plan: seq<C>, other: seq<C>)
    requires LeastPlan(p, plan) && plan != []
    requires p.next(p.start, plan[0]).Successor? && IsPlan(p.(start := p.next(p.start, plan[0]).state), other)
    ensures plan[0] in p.calls
    ensures IsPlan(p.(start := p.next(p.start, plan[0]).state), plan[1..])
    ensures |plan[1..]| <= |other|
  {
    HeadOfPlan(p, plan);
    var c := plan[0];
    ReachedOne(p, c);
    ReachedCons(p, c, other);
    assert IsPlan(p, [c] + other);
    assert Leq(p.calls, plan, [c] + other);
  }

  /** The head of a plan is a candidate that is applicable in the start state. */
  lemma HeadOfPlan<S, C>(p: Problem<S, C>, plan: seq<C>)
    requires IsPlan(p, plan) && plan != []
    ensures plan[0] in p.calls && p.next(p.start, plan[0]).Successor?
    ensures IsPlan(p.(start := p.next(p.start, plan[0]).state), plan[1..])
  {
    assert plan == [plan[0]] + plan[1..];
    ReachedCons(p, plan[0], plan[1..]);
    ReachedOne(p, plan[0]);
  }

  // ---------------------------------------------------------------------------------------------
  // The search invariant. `order` lists every node ever enqueued, `h` is the node under expansion
  // and `j` counts the calls of it that have been tried.
  // ---------------------------------------------------------------------------------------------

  ghost predicate Tried<C>(calls: seq<C>, i: int, c: C, h: nat, j: nat)
    requires j <= |calls|
  {
    (i < h && c in calls) || (i == h && c in calls[..j])
  }

  ghost predicate NodesReached<S, C>(p: Problem<S, C>, order: seq<Node<S, C>>)
  {
    forall i :: 0 <= i < |order| ==>
      Reached(p, order[i].path) == Some(order[i].state) && !p.goal(order[i].state)
  }

  ghost predicate KeysDistinct<S, C, K>(key: S -> K, order: seq<Node<S, C>>)
  {
    forall i, k :: 0 <= i < k < |order| ==> key(order[i].state) != key(order[k].state)
  }

  ghost predicate Sorted<S, C>(calls: seq<C>, order: seq<Node<S, C>>)
  {
    forall i, k :: 0 <= i < k < |order| ==> Less(calls, order[i].path, order[k].path)
  }

  /** The path was generated by a call that has been tried already. */
  ghost predicate GeneratedBefore<S, C>(calls: seq<C>, order: seq<Node<S, C>>, h: nat, j: nat, path: seq<C>)
    requires h <= |order| && j <= |calls|
  {
    path == [] ||
    (h < |order| ==>
       Less(calls, Init(path), order[h].path) ||
       (Init(path) == order[h].path && Last(path) in calls[..j]))
  }

  /** Some enqueued node has this key and a path that is not later than `path`. */
  ghost predicate Seen<S, C, K>(calls: seq<C>, key: S -> K, order: seq<Node<S, C>>, t: S, path: seq<C>)
  {
    exists k :: 0 <= k < |order| && key(order[k].state) == key(t) && Leq(calls, order[k].path, path)
  }

  /** No tried expansion raised, and each gave a state whose key is enqueued, by a path no later than this one. */
  ghost predicate ExpansionsSeen<S, C(!new), K>(p: Problem<S, C>, key: S -> K, order: seq<Node<S, C>>, h: nat, j: nat)
    requires j <= |p.calls|
  {
    && (forall i, c :: 0 <= i < |order| && Tried(p.calls, i, c, h, j) ==> !p.next(order[i].state, c).Raised?)
    && (forall i, c :: 0 <= i < |order| && Tried(p.calls, i, c, h, j) && p.next(order[i].state, c).Successor? ==>
          Seen(p.calls, key, order, p.next(order[i].state, c).state, order[i].path + [c]))
  }

  ghost predicate Inv<S, C(!new), K>(p: Problem<S, C>, key: S -> K, order: seq<Node<S, C>>, h: nat, j: nat)
  {
    && |order| > 0 && order[0] == Node(p.start, [])
    && h <= |order| && j <= |p.calls| && (h == |order| ==> j == 0)
    && NodesReached(p, order)
    && KeysDistinct(key, order)
    && Sorted(p.calls, order)
    && (forall i :: 0 <= i < |order| ==> GeneratedBefore(p.calls, order, h, j, order[i].path))
    && ExpansionsSeen(p, key, order, h, j)
  }

  ghost function Keys<S, C, K>(key: S -> K, order: seq<Node<S, C>>): set<K>
  {
    set i | 0 <= i < |order| :: key(order[i].state)
  }

  lemma InvStart<S, C(!new), K>(p: Problem<S, C>, key: S -> K)
    requires !p.goal(p.start)
    ensures Inv(p, key, [Node(p.start, [])], 0, 0)
  {
  }

  /** Every path generated so far precedes the one that the next untried call would give. */
  lemma GeneratedIsEarlier<S, C>(calls: seq<C>, order: seq<Node<S, C>>, h: nat, j: nat, path: seq<C>)
    requires h < |order| && j < |calls| && calls[j] !in calls[..j]
    requires GeneratedBefore(calls, order, h, j, path)
    ensures Less(calls, path, order[h].path + [calls[j]])
  {
    if path != [] {
      assert path == Init(path) + [Last(path)];
      if Less(calls, Init(path), order[h].path) {
        LessAppend(calls, Init(path), order[h].path, Last(path), calls[j]);
      } else {
        RankInPrefix(calls, j, Last(path));
        RankOutsidePrefix(calls, j, calls[j]);
        LessLast(calls, Init(path), Last(path), calls[j]);
      }
    }
  }

  lemma RankInPrefix<C>(calls: seq<C>, j: nat, c: C)
    requires j <= |calls| && c in calls[..j]
    ensures Rank(calls, c) < j
  {
    var i :| 0 <= i < j && calls[i] == c;
    assert Rank(calls, c) <= i;
  }

  lemma RankOutsidePrefix<C>(calls: seq<C>, j: nat, c: C)
    requires j <= |calls| && c !in calls[..j]
    ensures Rank(calls, c) >= j
  {
    assert forall i :: 0 <= i < j ==> calls[i] in calls[..j];
  }

  /** The tried call gave nothing new: it is inapplicable, or leads to a key already seen. */
  lemma InvSkip<S, C(!new), K>(p: Problem<S, C>, key: S -> K, order: seq<Node<S, C>>, h: nat, j: nat)
    requires Inv(p, key, order, h, j) && h < |order| && j < |p.calls|
    requires var e := p.next(order[h].state, p.calls[j]);
             !e.Raised? && (e.Successor? ==> key(e.state) in Keys(key, order))
    ensures Inv(p, key, order, h, j + 1)
  {
    var c := p.calls[j];
    assert p.calls[..j + 1] == p.calls[..j] + [c];
    forall i, d | 0 <= i < |order| && Tried(p.calls, i, d, h, j + 1) && p.next(order[i].state, d).Successor?
      ensures Seen(p.calls, key, order, p.next(order[i].state, d).state, order[i].path + [d])
    {
      if !Tried(p.calls, i, d, h, j) {
        var t := p.next(order[h].state, c).state;
        var k :| 0 <= k < |order| && key(order[k].state) == key(t);
        assert GeneratedBefore(p.calls, order, h, j, order[k].path);
        GeneratedIsEarlier(p.calls, order, h, j, order[k].path);
      }
    }
    forall i | 0 <= i < |order|
      ensures GeneratedBefore(p.calls, order, h, j + 1, order[i].path)
    {
      assert GeneratedBefore(p.calls, order, h, j, order[i].path);
    }
  }

  /** A call tried twice finds its key already seen, so only first occurrences enqueue. */
  lemma FreshMeansFirst<S, C(!new), K>(p: Problem<S, C>, key: S -> K, order: seq<Node<S, C>>, h: nat, j: nat)
    requires Inv(p, key, order, h, j) && h < |order| && j < |p.calls|
    requires p.next(order[h].state, p.calls[j]).Successor?
    requires key(p.next(order[h].state, p.calls[j]).state) !in Keys(key, order)
    ensures p.calls[j] !in p.calls[..j]
  {
    var c := p.calls[j];
    var t := p.next(order[h].state, c).state;
    assert c in p.calls[..j] ==> Tried(p.calls, h, c, h, j);
    assert Seen(p.calls, key, order, t, order[h].path + [c]) ==> key(t) in Keys(key, order);
  }

  /** The tried call generated a new non-goal state, which is enqueued last. */
  lemma InvEnqueue<S, C(!new), K>(p: Problem<S, C>, key: S -> K, order: seq<Node<S, C>>, h: nat, j: nat,
    node: Node<S, C>)
    requires Inv(p, key, order, h, j) && h < |order| && j < |p.calls|
    requires p.next(order[h].state, p.calls[j]) == Successor(node.state)
    requires node.path == order[h].path + [p.calls[j]]
    requires key(node.state) !in Keys(key, order) && !p.goal(node.state)
    ensures Inv(p, key, order + [node], h, j + 1)
  {
    var c := p.calls[j];
    var longer := order + [node];
    FreshMeansFirst(p, key, order, h, j);
    assert Init(node.path) == order[h].path && Last(node.path) == c;
    assert p.calls[..j + 1] == p.calls[..j] + [c];
    forall i | 0 <= i < |order|
      ensures Less(p.calls, order[i].path, node.path)
      ensures key(order[i].state) != key(node.state)
      ensures GeneratedBefore(p.calls, longer, h, j + 1, longer[i].path)
    {
      assert GeneratedBefore(p.calls, order, h, j, order[i].path);
      GeneratedIsEarlier(p.calls, order, h, j, order[i].path);
      assert key(order[i].state) in Keys(key, order);
    }
    forall i, d | 0 <= i < |longer| && Tried(p.calls, i, d, h, j + 1) && p.next(longer[i].state, d).Successor?
      ensures Seen(p.calls, key, longer, p.next(longer[i].state, d).state, longer[i].path + [d])
    {
      if Tried(p.calls, i, d, h, j) {
        var t := p.next(order[i].state, d).state;
        var k :| 0 <= k < |order| && key(order[k].state) == key(t) && Leq(p.calls, order[k].path, order[i].path + [d]);
        assert longer[k] == order[k];
      } else {
        assert longer[|order|] == node;
      }
    }
  }

  /** All calls of the head have been tried: the next node in line becomes the head. */
  lemma InvNextHead<S, C(!new), K>(p: Problem<S, C>, key: S -> K, order: seq<Node<S, C>>, h: nat)
    requires Inv(p, key, order, h, |p.calls|) && h < |order|
    ensures Inv(p, key, order, h + 1, 0)
  {
    assert p.calls[..|p.calls|] == p.calls;
    forall i | 0 <= i < |order|
      ensures GeneratedBefore(p.calls, order, h + 1, 0, order[i].path)
    {
      var path := order[i].path;
      assert GeneratedBefore(p.calls, order, h, |p.calls|, path);
      if path != [] && h + 1 < |order| {
        assert Less(p.calls, order[h].path, order[h + 1].path);
        if Less(p.calls, Init(path), order[h].path) {
          LessTransitive(p.calls, Init(path), order[h].path, order[h + 1].path);
        }
      }
    }
    forall i, c | 0 <= i < |order| && Tried(p.calls, i, c, h + 1, 0) && p.next(order[i].state, c).Successor?
      ensures Seen(p.calls, key, order, p.next(order[i].state, c).state, order[i].path + [c])
    {
      assert Tried(p.calls, i, c, h, |p.calls|);
    }
  }

  // ---------------------------------------------------------------------------------------------
  // What the invariant says about paths the search has not generated
  // ---------------------------------------------------------------------------------------------

  /** The path comes from a node that waits, or from an untried call of the head. */
  ghost predicate Beyond<S, C>(calls: seq<C>, order: seq<Node<S, C>>, h: nat, j: nat, path: seq<C>)
    requires j <= |calls|
  {
    && h < |order| && path != []
    && (Less(calls, order[h].path, Init(path)) || (Init(path) == order[h].path && Last(path) !in calls[..j]))
  }

  ghost predicate Covered<S, C>(calls: seq<C>, order: seq<Node<S, C>>, t: S, path: seq<C>)
  {
    exists k :: 0 <= k < |order| && order[k].state == t && Leq(calls, order[k].path, path)
  }

  /** Every path is either already represented among the enqueued nodes or still to come. */
  lemma {:induction false} CoveredOrBeyond<S(!new), C(!new), K>(
    p: Problem<S, C>, key: S -> K, order: seq<Node<S, C>>, h: nat, j: nat, path: seq<C>)
    requires Inv(p, key, order, h, j) && Faithful(key) && Reached(p, path).Some?
    ensures Covered(p.calls, order, Reached(p, path).value, path) || Beyond(p.calls, order, h, j, path)
    decreases |path|
  {
    if path == [] {
      assert order[0].state == p.start;
    } else {
      var before, c := Init(path), Last(path);
      var u := Reached(p, before).value;
      assert path == before + [c];
      CoveredOrBeyond(p, key, order, h, j, before);
      if Covered(p.calls, order, u, before) {
        var i :| 0 <= i < |order| && order[i].state == u && Leq(p.calls, order[i].path, before);
        if Tried(p.calls, i, c, h, j) && (i < h || before == order[i].path) {
          CoveredByExpansion(p, key, order, h, j, path, i);
        } else if Tried(p.calls, i, c, h, j) {
          assert Less(p.calls, order[h].path, before);
        } else if i > h {
          assert Less(p.calls, order[h].path, order[i].path);
          if before != order[i].path { LessTransitive(p.calls, order[h].path, order[i].path, before); }
        }
      } else if |Init(before)| >= |order[h].path| {
        assert Less(p.calls, order[h].path, before);
      }
    }
  }

  lemma CoveredByExpansion<S(!new), C(!new), K>(
    p: Problem<S, C>, key: S -> K, order: seq<Node<S, C>>, h: nat, j: nat, path: seq<C>, i: nat)
    requires j <= |p.calls| && ExpansionsSeen(p, key, order, h, j) && Faithful(key)
    requires path != [] && Reached(p, path).Some?
    requires i < |order| && Reached(p, Init(path)) == Some(order[i].state) && Leq(p.calls, order[i].path, Init(path))
    requires Tried(p.calls, i, Last(path), h, j)
    ensures Covered(p.calls, order, Reached(p, path).value, path)
  {
    var c, before := Last(path), Init(path);
    var t := Reached(p, path).value;
    assert Seen(p.calls, key, order, t, order[i].path + [c]);
    var k :| 0 <= k < |order| && key(order[k].state) == key(t) && Leq(p.calls, order[k].path, order[i].path + [c]);
    assert path == before + [c];
    if order[i].path != before {
      LessAppend(p.calls, order[i].path, before, c, c);
      if order[k].path != order[i].path + [c] {
        LessTransitive(p.calls, order[k].path, order[i].path + [c], path);
      }
    }
  }

  /** A goal state generated by the call under trial completes the least plan. */
  lemma FoundIsLeast<S(!new), C(!new), K>(p: Problem<S, C>, key: S -> K, order: seq<Node<S, C>>, h: nat, j: nat)
    requires Inv(p, key, order, h, j) && h < |order| && j < |p.calls| && Faithful(key)
    requires var e := p.next(order[h].state, p.calls[j]); e.Successor? && p.goal(e.state)
    ensures LeastPlan(p, order[h].path + [p.calls[j]])
  {
    var plan := order[h].path + [p.calls[j]];
    FoundIsPlan(p, key, order, h, j);
    forall other | IsPlan(p, other)
      ensures Leq(p.calls, plan, other)
    {
      CoveredOrBeyond(p, key, order, h, j, other);
      BeyondIsLater(p.calls, order, h, j, other);
    }
  }

  lemma BeyondIsLater<S, C>(calls: seq<C>, order: seq<Node<S, C>>, h: nat, j: nat, path: seq<C>)
    requires h < |order| && j < |calls|
    ensures Beyond(calls, order, h, j, path) ==> Leq(calls, order[h].path + [calls[j]], path)
  {
    if Beyond(calls, order, h, j, path) {
      var head, c := order[h].path, calls[j];
      assert path == Init(path) + [Last(path)];
      if Less(calls, head, Init(path)) {
        LessAppend(calls, head, Init(path), c, Last(path));
      } else {
        RankOutsidePrefix(calls, j, Last(path));
        RankUpTo(calls, j);
        if Rank(calls, c) < Rank(calls, Last(path)) {
          LessLast(calls, head, c, Last(path));
        }
      }
    }
  }

  lemma RankUpTo<C>(calls: seq<C>, j: nat)
    requires j < |calls|
    ensures Rank(calls, calls[j]) <= j
  {
  }

  lemma FoundIsPlan<S, C(!new), K>(p: Problem<S, C>, key: S -> K, order: seq<Node<S, C>>, h: nat, j: nat)
    requires Inv(p, key, order, h, j) && h < |order| && j < |p.calls|
    requires var e := p.next(order[h].state, p.calls[j]); e.Successor? && p.goal(e.state)
    ensures IsPlan(p, order[h].path + [p.calls[j]])
  {
    var plan := order[h].path + [p.calls[j]];
    assert Init(plan) == order[h].path && Last(plan) == p.calls[j];
  }

  /** With the frontier empty every reachable state was enqueued, and none of them is a goal. */
  lemma ExhaustedHasNoPlan<S(!new), C(!new), K>(p: Problem<S, C>, key: S -> K, order: seq<Node<S, C>>)
    requires Inv(p, key, order, |order|, 0) && Faithful(key)
    ensures forall path :: !IsPlan(p, path)
  {
    forall path
      ensures !IsPlan(p, path)
    {
      if IsPlan(p, path) {
        CoveredOrBeyond(p, key, order, |order|, 0, path);
      }
    }
  }

  /** Every expanded node has a key of its own, so each covering set is larger than the budget spent. */
  lemma BudgetSpent<S, C(!new), K(!new)>(p: Problem<S, C>, key: S -> K, order: seq<Node<S, C>>, budget: int)
    requires exists h, j :: Inv(p, key, order, h, j)
    requires |order| > budget
    ensures forall space | Covers(p, key, space) :: |space| > budget
  {
    forall space | Covers(p, key, space)
      ensures |space| > budget
    {
      var keys := seq(|order|, i requires 0 <= i < |order| => key(order[i].state));
      DistinctBound(keys, space);
    }
  }

  // ---------------------------------------------------------------------------------------------
  // What an answer costs
  // ---------------------------------------------------------------------------------------------

  lemma KeyCount<S, C, K>(key: S -> K, order: seq<Node<S, C>>)
    ensures |Keys(key, order)| <= |order|
  {
    var keys := seq(|order|, i requires 0 <= i < |order| => key(order[i].state));
    MemberCount(keys);
    assert Keys(key, order) == set k | k in keys by {
      forall k | k in Keys(key, order)
        ensures k in keys
      {
        var i :| 0 <= i < |order| && key(order[i].state) == k;
        assert keys[i] == k;
      }
    }
  }

  /** The nodes popped so far hold the keys of everything up to the one popped last. */
  lemma PoppedCoverUpTo<S(!new), C(!new), K>(p: Problem<S, C>, key: S -> K, order: seq<Node<S, C>>, h: nat)
    requires Inv(p, key, order, h, 0) && h < |order| && Faithful(key)
    ensures CoversUpTo(p, key, Keys(key, order[..h + 1]), order[h].path) && |Keys(key, order[..h + 1])| <= h + 1
  {
    var popped := order[..h + 1];
    KeyCount(key, popped);
    forall path | Reached(p, path).Some? && Leq(p.calls, path, order[h].path)
      ensures key(Reached(p, path).value) in Keys(key, popped)
    {
      CoveredOrBeyond(p, key, order, h, 0, path);
      NotBeyond(p.calls, order, h, path);
      var k :| 0 <= k < |order| && order[k].state == Reached(p, path).value && Leq(p.calls, order[k].path, path);
      if k > h {
        assert Less(p.calls, order[h].path, order[k].path);
        NotLater(p.calls, order[h].path, order[k].path, path);
      }
      assert popped[k] == order[k];
    }
  }

  /** What is no later than the head is not beyond it. */
  lemma NotBeyond<S, C>(calls: seq<C>, order: seq<Node<S, C>>, h: nat, path: seq<C>)
    requires h < |order| && Leq(calls, path, order[h].path)
    ensures !Beyond(calls, order, h, 0, path)
  {
  }

  lemma NotLater<C>(calls: seq<C>, p: seq<C>, q: seq<C>, r: seq<C>)
    requires Less(calls, p, q) && Leq(calls, q, r)
    ensures !Leq(calls, r, p)
  {
    if q != r { LessTransitive(calls, p, q, r); }
    if Leq(calls, r, p) && r != p {
      LessTransitive(calls, p, r, p);
    }
    LessIrreflexive(calls, p);
  }

  /** A plan found by the call under trial cost one pop per node up to the head. */
  lemma FoundIsEconomical<S(!new), C(!new), K(!new)>(p: Problem<S, C>, key: S -> K, order: seq<Node<S, C>>, h: nat,
    now: seq<Node<S, C>>, j: nat, budget: int)
    requires Inv(p, key, order, h, 0) && h < |order| && h + 1 <= budget && Faithful(key)
    requires Inv(p, key, now, h, j) && h < |now| && j < |p.calls| && now[h] == order[h]
    requires p.next(now[h].state, p.calls[j]).Successor?
    ensures Economical(p, key, budget, PlanFound(now[h].path + [p.calls[j]]))
  {
    var plan := now[h].path + [p.calls[j]];
    assert Init(plan) == order[h].path;
    PoppedCoverUpTo(p, key, order, h);
    forall path, c | RaisesAt(p, path, c)
      ensures !Leq(p.calls, path + [c], plan)
    {
      RaiseIsAhead(p, key, now, h, j, path, c);
    }
  }

  /** No call tried so far raised, so whatever raises comes later than the call under trial. */
  lemma RaiseIsAhead<S(!new), C(!new), K>(p: Problem<S, C>, key: S -> K, order: seq<Node<S, C>>, h: nat, j: nat,
    path: seq<C>, c: C)
    requires Inv(p, key, order, h, j) && h < |order| && j < |p.calls| && Faithful(key) && RaisesAt(p, path, c)
    requires !p.next(order[h].state, p.calls[j]).Raised?
    ensures !Leq(p.calls, path + [c], order[h].path + [p.calls[j]])
  {
    CoveredOrBeyond(p, key, order, h, j, path);
    if Covered(p.calls, order, Reached(p, path).value, path) {
      var i :| 0 <= i < |order| && order[i].state == Reached(p, path).value && Leq(p.calls, order[i].path, path);
      assert !Tried(p.calls, i, c, h, j);
      hide Inv, Less, Leq;
      LeqAppend(p.calls, order[i].path, path, c);
      UntriedIsLater(p, key, order, h, j, i, c);
      NotLater(p.calls, order[h].path + [p.calls[j]], order[i].path + [c], path + [c]);
    } else {
      BeyondIsLater(p.calls, order, h, j, path);
      LeqIsNoLonger(p.calls, order[h].path + [p.calls[j]], path);
      assert |path + [c]| > |order[h].path + [p.calls[j]]|;
    }
  }

  lemma UntriedIsLater<S, C(!new), K>(p: Problem<S, C>, key: S -> K, order: seq<Node<S, C>>, h: nat, j: nat, i: nat,
    c: C)
    requires Inv(p, key, order, h, j) && h < |order| && j < |p.calls| && i < |order|
    requires c in p.calls && !Tried(p.calls, i, c, h, j) && !(i == h && c == p.calls[j])
    ensures Less(p.calls, order[h].path + [p.calls[j]], order[i].path + [c])
  {
    hide ExpansionsSeen, NodesReached, KeysDistinct, GeneratedBefore;
    var d := p.calls[j];
    if i > h {
      assert Less(p.calls, order[h].path, order[i].path);
      LessAppend(p.calls, order[h].path, order[i].path, d, c);
    } else {
      RankOutsidePrefix(p.calls, j, c);
      RankUpTo(p.calls, j);
      LessLast(p.calls, order[h].path, d, c);
    }
  }

  lemma LeqAppend<C>(calls: seq<C>, p: seq<C>, q: seq<C>, c: C)
    requires Leq(calls, p, q)
    ensures Leq(calls, p + [c], q + [c])
  {
    if p != q { LessAppend(calls, p, q, c, c); }
  }

  /** An empty frontier: everything reachable was popped within the budget, and nothing raised. */
  lemma ExhaustedIsEconomical<S(!new), C(!new), K(!new)>(p: Problem<S, C>, key: S -> K, order: seq<Node<S, C>>,
    budget: int)
    requires Inv(p, key, order, |order|, 0) && Faithful(key) && |order| <= budget
    ensures Economical(p, key, budget, NoPlan)
  {
    KeyCount(key, order);
    forall path | Reached(p, path).Some?
      ensures key(Reached(p, path).value) in Keys(key, order)
    {
      CoveredOrBeyond(p, key, order, |order|, 0, path);
    }
    assert Covers(p, key, Keys(key, order));
    forall path, c | Reached(p, path).Some? && c in p.calls
      ensures !p.next(Reached(p, path).value, c).Raised?
    {
      CoveredOrBeyond(p, key, order, |order|, 0, path);
      var i :| 0 <= i < |order| && order[i].state == Reached(p, path).value;
      assert Tried(p.calls, i, c, |order|, 0);
    }
  }

  /** A raise by the call under trial is no later than any plan. */
  lemma RaiseIsEconomical<S(!new), C(!new), K(!new)>(p: Problem<S, C>, key: S -> K, order: seq<Node<S, C>>, h: nat,
    j: nat, budget: int)
    requires Inv(p, key, order, h, j) && h < |order| && j < |p.calls| && Faithful(key)
    requires p.next(order[h].state, p.calls[j]).Raised?
    ensures Economical(p, key, budget, PlannerFailure(false))
  {
    var path, c := order[h].path, p.calls[j];
    assert RaisesAt(p, path, c);
    forall plan | IsPlan(p, plan)
      ensures Leq(p.calls, path + [c], plan)
    {
      CoveredOrBeyond(p, key, order, h, j, plan);
      BeyondIsLater(p.calls, order, h, j, plan);
    }
  }

  /** The node popped over the budget is no later than the one before the last call of any plan. */
  lemma TimeoutIsEconomical<S(!new), C(!new), K(!new)>(p: Problem<S, C>, key: S -> K, order: seq<Node<S, C>>, h: nat,
    budget: int)
    requires Inv(p, key, order, h, 0) && h < |order| && h + 1 > budget && Faithful(key)
    ensures Economical(p, key, budget, PlannerFailure(true))
  {
    var popped := order[..h + 1];
    forall plan, space | plan != [] && IsPlan(p, plan) && CoversUpTo(p, key, space, Init(plan))
      ensures |space| > budget
    {
      CoveredOrBeyond(p, key, order, h, 0, plan);
      assert Leq(p.calls, order[h].path, Init(plan));
      var keys := seq(|popped|, i requires 0 <= i < |popped| => key(popped[i].state));
      forall i | 0 <= i < |keys|
        ensures keys[i] in space
      {
        UpTo(p.calls, order, h, i, Init(plan));
        assert Reached(p, order[i].path) == Some(order[i].state);
      }
      DistinctBound(keys, space);
    }
  }

  /** So a plan that was found within a budget is no longer than the budget: its states are all different. */
  lemma PlanFitsBudget<S(!new), C(!new), K(!new)>(p: Problem<S, C>, key: S -> K, budget: int, plan: seq<C>)
    requires LeastPlan(p, plan) && plan != [] && Faithful(key) && Economical(p, key, budget, PlanFound(plan))
    ensures |plan| <= budget
  {
    var space :| CoversUpTo(p, key, space, Init(plan)) && |space| <= budget;
    forall i: nat | i < |plan|
      ensures Reached(p, plan[..i]).Some? && Leq(p.calls, plan[..i], Init(plan))
    {
      PrefixIsReached(p, plan, i);
      if i == |plan| - 1 { assert plan[..i] == Init(plan); }
    }
    var keys := seq(|plan|, i requires 0 <= i < |plan| => key(StateAlong(p, plan, i)));
    forall i: nat, k: nat | i < k < |plan|
      ensures keys[i] != keys[k]
    {
      if StateAlong(p, plan, i) == StateAlong(p, plan, k) {
        Shortcut(p, plan, i, k);
        LeqIsNoLonger(p.calls, plan, plan[..i] + plan[k..]);
      }
    }
    forall i | 0 <= i < |keys|
      ensures keys[i] in space
    {
      assert keys[i] == key(StateAlong(p, plan, i));
      assert Reached(p, plan[..i]).Some? && Leq(p.calls, plan[..i], Init(plan));
    }
    DistinctBound(keys, space);
  }

  lemma {:induction false} PrefixIsReached<S, C>(p: Problem<S, C>, path: seq<C>, i: nat)
    requires Reached(p, path).Some? && i <= |path|
    ensures Reached(p, path[..i]).Some?
    decreases |path|
  {
    if i < |path| {
      PrefixIsReached(p, Init(path), i);
      assert Init(path)[..i] == path[..i];
    } else {
      assert path[..i] == path;
    }
  }

  /** The state after the first `i` calls. */
  ghost function StateAlong<S, C>(p: Problem<S, C>, path: seq<C>, i: nat): S
    requires Reached(p, path).Some? && i <= |path|
  {
    PrefixIsReached(p, path, i);
    Reached(p, path[..i]).value
  }

  /** Between two equal states the calls can be left out. */
  lemma {:induction false} Shortcut<S, C>(p: Problem<S, C>, path: seq<C>, i: nat, k: nat)
    requires Reached(p, path).Some? && i <= k <= |path| && StateAlong(p, path, i) == StateAlong(p, path, k)
    ensures Reached(p, path[..i] + path[k..]) == Reached(p, path)
    decreases |path|
  {
    var cut := path[..i] + path[k..];
    PrefixIsReached(p, path, i);
    if k == |path| {
      assert cut == path[..i] && path[..k] == path;
    } else {
      var shorter := Init(path);
      assert shorter[..i] == path[..i] && shorter[..k] == path[..k];
      Shortcut(p, shorter, i, k);
      assert Init(cut) == shorter[..i] + shorter[k..] && Last(cut) == Last(path);
    }
  }

  lemma UpTo<S, C>(calls: seq<C>, order: seq<Node<S, C>>, h: nat, i: nat, bound: seq<C>)
    requires Sorted(calls, order) && i <= h < |order| && Leq(calls, order[h].path, bound)
    ensures Leq(calls, order[i].path, bound)
  {
    if i < h && order[h].path != bound {
      LessTransitive(calls, order[i].path, order[h].path, bound);
    }
  }

  // ---------------------------------------------------------------------------------------------
  // The search
  // ---------------------------------------------------------------------------------------------

  /** The body of the loop: try every call of the popped node; an answer ends the search. */
  method ExpandNode<S(!new), C(==, !new), K(==, !new)>(
    p: Problem<S, C>, key: S -> K, current: Node<S, C>, waiting: seq<Node<S, C>>, seen: set<K>,
    ghost before: seq<Node<S, C>>, ghost h: nat, ghost budget: int)
    returns (answer: Option<PlannerResult<C>>, frontier: seq<Node<S, C>>, visited: set<K>, ghost order: seq<Node<S, C>>)
    requires Inv(p, key, before, h, 0) && h < |before| && before[h] == current
    requires waiting == before[h + 1..] && seen == Keys(key, before) && h + 1 <= budget
    ensures answer.None? ==> h < |order| && Inv(p, key, order, h + 1, 0)
    ensures answer.None? ==> frontier == order[h + 1..] && visited == Keys(key, order)
    ensures answer.Some? ==> answer.value == PlannerFailure(false) || answer.value.PlanFound?
    ensures answer.Some? && answer.value.PlanFound? ==> IsPlan(p, answer.value.plan)
    ensures answer.Some? && answer.value.PlanFound? && Faithful(key) ==> LeastPlan(p, answer.value.plan)
    ensures answer == Some(PlannerFailure(false)) ==> MayRaise(p)
    ensures answer.Some? && Faithful(key) ==> Economical(p, key, budget, answer.value)
  {
    frontier, visited, order := waiting, seen, before;
    for j := 0 to |p.calls|
      invariant h < |order| && Inv(p, key, order, h, j)
      invariant order[h] == current && frontier == order[h + 1..] && visited == Keys(key, order)
    {
      var c := p.calls[j];
      match p.next(current.state, c) {
        case Inapplicable =>
          InvSkip(p, key, order, h, j);
        case Raised =>
          RaisedIsReachable(p, key, order, h, j);
          if Faithful(key) { RaiseIsEconomical(p, key, order, h, j, budget); }
          return Some(PlannerFailure(false)), frontier, visited, order;
        case Successor(t) =>
          if key(t) in visited {
            InvSkip(p, key, order, h, j);
          } else {
            var steps := current.path + [c];
            if p.goal(t) {
              FoundIsPlan(p, key, order, h, j);
              if Faithful(key) {
                FoundIsLeast(p, key, order, h, j);
                FoundIsEconomical(p, key, before, h, order, j, budget);
              }
              return Some(PlanFound(steps)), frontier, visited, order;
            }
            InvEnqueue(p, key, order, h, j, Node(t, steps));
            KeysAppend(key, order, Node(t, steps));
            visited := visited + {key(t)};
            frontier := frontier + [Node(t, steps)];
            order := order + [Node(t, steps)];
          }
      }
    }
    InvNextHead(p, key, order, h);
    answer := None;
  }

  /**
    The goal is tested on the start state and then when a state is generated; the budget is charged
    after each pop. A found plan is always a plan; all four answers are exact when the key tells
    states apart, and then each is given if and only if the budget admits it.
  */
  method BreadthFirst<S(!new), C(==, !new), K(==, !new)>(p: Problem<S, C>, key: S -> K, budget: int)
    returns (r: PlannerResult<C>)
    ensures r.PlanFound? ==> IsPlan(p, r.plan)
    ensures Faithful(key) ==> Correct(p, key, budget, r) && Economical(p, key, budget, r)
  {
    hide ExpansionsSeen, KeysDistinct, Sorted, GeneratedBefore, NodesReached, CoversUpTo, Covers, RaisesAt;
    if p.goal(p.start) {
      assert IsPlan(p, []);
      return PlanFound([]);
    }
    ghost var order := [Node(p.start, [])];
    InvStart(p, key);
    if p.calls == [] {
      InvNextHead(p, key, order, 0);
      if Faithful(key) { ExhaustedHasNoPlan(p, key, order); }
      return NoPlan;
    }
    var frontier := [Node(p.start, [])];
    var visited := {key(p.start)};
    var expanded := 0;
    while frontier != []
      invariant 0 <= expanded <= |order| && Inv(p, key, order, expanded, 0) && (expanded > 0 ==> expanded <= budget)
      invariant frontier == order[expanded..]
      invariant visited == Keys(key, order)
      decreases budget - expanded
    {
      var current := frontier[0];
      frontier := frontier[1..];
      expanded := expanded + 1;
      if expanded > budget {
        BudgetSpent(p, key, order, budget);
        if Faithful(key) { TimeoutIsEconomical(p, key, order, expanded - 1, budget); }
        return PlannerFailure(true);
      }
      var answer;
      answer, frontier, visited, order := ExpandNode(p, key, current, frontier, visited, order, expanded - 1, budget);
      if answer.Some? {
        return answer.value;
      }
    }
    if Faithful(key) {
      ExhaustedHasNoPlan(p, key, order);
      ExhaustedIsEconomical(p, key, order, budget);
    }
    return NoPlan;
  }

  lemma RaisedIsReachable<S, C(!new), K>(p: Problem<S, C>, key: S -> K, order: seq<Node<S, C>>, h: nat, j: nat)
    requires Inv(p, key, order, h, j) && h < |order| && j < |p.calls| && p.next(order[h].state, p.calls[j]).Raised?
    ensures MayRaise(p)
  {
    assert Reached(p, order[h].path) == Some(order[h].state) && p.calls[j] in p.calls;
  }

  lemma KeysAppend<S, C, K>(key: S -> K, order: seq<Node<S, C>>, node: Node<S, C>)
    ensures Keys(key, order + [node]) == Keys(key, order) + {key(node.state)}
  {
    var longer := order + [node];
    forall k | k in Keys(key, order)
      ensures k in Keys(key, longer)
    {
      var i :| 0 <= i < |order| && key(order[i].state) == k;
      assert longer[i] == order[i];
    }
    assert longer[|order|] == node;
  }

  /**
    Budget adequacy: with a finite space that covers the reachable keys and a budget of at least its
    size, and callbacks that never raise, the answer is never a failure - a plan is found exactly
    when one exists.
  */
  lemma AdequateBudgetIsExact<S(!new), C(!new), K(!new)>(
    p: Problem<S, C>, key: S -> K, budget: int, space: set<K>, r: PlannerResult<C>)
    requires Correct(p, key, budget, r)
    requires Covers(p, key, space) && |space| <= budget && !MayRaise(p)
    ensures !r.PlannerFailure?
    ensures r.PlanFound? <==> exists path :: IsPlan(p, path)
  {
    if r.PlanFound? { assert IsPlan(p, r.plan); }
  }

  // ---------------------------------------------------------------------------------------------
  // The answer always exists
  // ---------------------------------------------------------------------------------------------

  ghost predicate HasPlanOfLength<S, C(!new)>(p: Problem<S, C>, n: nat)
  {
    exists path :: IsPlan(p, path) && |path| == n
  }

  /** Some plan of this length starts with the candidate at this position. */
  ghost predicate StartsPlan<S, C(!new)>(p: Problem<S, C>, n: nat, r: nat)
  {
    && r < |p.calls| && p.next(p.start, p.calls[r]).Successor?
    && HasPlanOfLength(p.(start := p.next(p.start, p.calls[r]).state), n)
  }

  /** Among the plans of one length there is a first one. */
  lemma {:induction false} LeastOfLength<S, C(!new)>(p: Problem<S, C>, n: nat) returns (plan: seq<C>)
    requires HasPlanOfLength(p, n)
    ensures IsPlan(p, plan) && |plan| == n
    ensures forall other :: IsPlan(p, other) && |other| == n ==> Leq(p.calls, plan, other)
    decreases n
  {
    if n == 0 {
      plan := [];
    } else {
      var r := FirstStart(p, n - 1);
      var c := p.calls[r];
      var q := p.(start := p.next(p.start, c).state);
      var rest := LeastOfLength(q, n - 1);
      plan := [c] + rest;
      PlanCons(p, c, rest);
      forall other | IsPlan(p, other) && |other| == n
        ensures Leq(p.calls, plan, other)
      {
        LeqFromStart(p, n - 1, r, rest, other);
      }
    }
  }

  /**
    A plan from the first useful candidate precedes every equally long
    plan, if its rest precedes the equally long rests.
  */
  lemma LeqFromStart<S, C(!new)>(p: Problem<S, C>, n: nat, r: nat, rest: seq<C>, other: seq<C>)
    requires StartsPlan(p, n, r) && forall k: nat :: k < r ==> !StartsPlan(p, n, k)
    requires |rest| == n && IsPlan(p, other) && |other| == n + 1
    requires var after := p.(start := p.next(p.start, p.calls[r]).state);
             forall tail :: IsPlan(after, tail) && |tail| == n ==> Leq(p.calls, rest, tail)
    ensures Leq(p.calls, [p.calls[r]] + rest, other)
  {
    hide IsPlan, Leq, HasPlanOfLength;
    var c := p.calls[r];
    HeadOfPlan(p, other);
    assert other == [other[0]] + other[1..];
    if other[0] == c {
      LeqCons(p.calls, c, rest, other[1..]);
    } else {
      var k := Rank(p.calls, other[0]);
      TailStarts(p, n, k, other);
      RankUpTo(p.calls, r);
      LaterHead(p.calls, [c] + rest, other);
    }
  }

  lemma TailStarts<S, C(!new)>(p: Problem<S, C>, n: nat, k: nat, other: seq<C>)
    requires other != [] && k == Rank(p.calls, other[0]) && other[0] in p.calls && p.next(p.start, other[0]).Successor?
    requires IsPlan(p.(start := p.next(p.start, other[0]).state), other[1..]) && |other| == n + 1
    ensures StartsPlan(p, n, k)
  {
    assert |other[1..]| == n;
  }

  lemma LaterHead<C>(calls: seq<C>, p: seq<C>, q: seq<C>)
    requires p != [] && |p| == |q| && Rank(calls, p[0]) < Rank(calls, q[0])
    ensures Leq(calls, p, q)
  {
    assert FirstDifference(calls, p, q, 0);
  }

  lemma PlanCons<S, C>(p: Problem<S, C>, c: C, rest: seq<C>)
    requires c in p.calls && p.next(p.start, c).Successor? && IsPlan(p.(start := p.next(p.start, c).state), rest)
    ensures IsPlan(p, [c] + rest)
  {
    ReachedOne(p, c);
    ReachedCons(p, c, rest);
  }

  lemma LeqCons<C>(calls: seq<C>, c: C, p: seq<C>, q: seq<C>)
    requires |p| == |q| && Leq(calls, p, q)
    ensures Leq(calls, [c] + p, [c] + q)
  {
    if p != q {
      var k :| 0 <= k < |p| && FirstDifference(calls, p, q, k);
      assert ([c] + p)[..k + 1] == [c] + p[..k];
      assert ([c] + q)[..k + 1] == [c] + q[..k];
      assert FirstDifference(calls, [c] + p, [c] + q, k + 1);
    }
  }

  lemma LeqIsNoLonger<C>(calls: seq<C>, p: seq<C>, q: seq<C>)
    requires Leq(calls, p, q)
    ensures |p| <= |q|
  {
  }

  /** Of two equally long sequences the earlier one does not start later. */
  lemma EarlierHead<C>(calls: seq<C>, p: seq<C>, q: seq<C>)
    requires p != [] && |p| == |q| && Leq(calls, p, q)
    ensures Rank(calls, p[0]) <= Rank(calls, q[0])
  {
    if p != q {
      var k :| 0 <= k < |p| && FirstDifference(calls, p, q, k);
      if k > 0 { assert p[0] == p[..k][0] == q[..k][0] == q[0]; }
    }
  }

  /** The first candidate that starts a plan one call longer than `n`. */
  lemma FirstStart<S, C(!new)>(p: Problem<S, C>, n: nat) returns (r: nat)
    requires HasPlanOfLength(p, n + 1)
    ensures StartsPlan(p, n, r) && forall k: nat :: k < r ==> !StartsPlan(p, n, k)
  {
    var path :| IsPlan(p, path) && |path| == n + 1;
    HeadOfPlan(p, path);
    ghost var found := Rank(p.calls, path[0]);
    assert |path[1..]| == n;
    assert StartsPlan(p, n, found);
    r := 0;
    while !StartsPlan(p, n, r)
      invariant r <= found && forall k: nat :: k < r ==> !StartsPlan(p, n, k)
      decreases found - r
    {
      r := r + 1;
    }
  }

  /** Whenever there is a plan there is a least one, so `PlanFound` is never an empty promise. */
  lemma LeastPlanExists<S, C(!new)>(p: Problem<S, C>, witnessed: seq<C>) returns (plan: seq<C>)
    requires IsPlan(p, witnessed)
    ensures LeastPlan(p, plan)
  {
    var n := 0;
    assert HasPlanOfLength(p, |witnessed|);
    while !HasPlanOfLength(p, n)
      invariant n <= |witnessed| && forall k: nat :: k < n ==> !HasPlanOfLength(p, k)
      decreases |witnessed| - n
    {
      n := n + 1;
    }
    plan := LeastOfLength(p, n);
    forall other | IsPlan(p, other)
      ensures Leq(p.calls, plan, other)
    {
      assert HasPlanOfLength(p, |other|);
    }
  }

  /** The answer of an unbounded search, as a function of the problem. */
  ghost function ExactAnswer<S(!new), C(!new)>(p: Problem<S, C>): (r: PlannerResult<C>)
    ensures !r.PlannerFailure?
    ensures r.PlanFound? ==> LeastPlan(p, r.plan)
    ensures r.NoPlan? ==> forall path :: !IsPlan(p, path)
  {
    if path :| IsPlan(p, path) then
      assert exists plan :: LeastPlan(p, plan) by { var plan := LeastPlanExists(p, path); }
      var plan :| LeastPlan(p, plan);
      PlanFound(plan)
    else NoPlan
  }

  /** Every correct answer that is no failure is that one. */
  lemma AnswerIsUnique<S(!new), C(!new), K(!new)>(p: Problem<S, C>, key: S -> K, budget: int, r: PlannerResult<C>)
    requires Correct(p, key, budget, r) && !r.PlannerFailure?
    ensures r == ExactAnswer(p)
  {
    if r.PlanFound? {
      assert IsPlan(p, r.plan);
      LeastPlanUnique(p, r.plan, ExactAnswer(p).plan);
    }
  }

  /** Everything that must be popped before the exact answer is known does not fit the budget. */
  ghost predicate ExceedsBudget<S(!new), C(!new), K(!new)>(p: Problem<S, C>, key: S -> K, budget: int)
  {
    var r := ExactAnswer(p);
    forall space | (if r.PlanFound? && r.plan != [] then CoversUpTo(p, key, space, Init(r.plan))
                    else Covers(p, key, space)) ::
      |space| > budget
  }

  /** Where nothing raises, the search times out if and only if the budget is exceeded. */
  lemma TimesOutIff<S(!new), C(!new), K(!new)>(p: Problem<S, C>, key: S -> K, budget: int, r: PlannerResult<C>)
    requires Correct(p, key, budget, r) && Economical(p, key, budget, r)
    requires !p.goal(p.start) && p.calls != [] && !MayRaise(p)
    ensures r == PlannerFailure(true) <==> ExceedsBudget(p, key, budget)
  {
    if r.PlannerFailure? {
      if ExactAnswer(p).PlanFound? { assert IsPlan(p, ExactAnswer(p).plan); }
    } else {
      AnswerIsUnique(p, key, budget, r);
      if r.PlanFound? { assert r.plan != []; }
    }
  }
}
