/** Effect prediction on both comparison bases, and the arithmetic behind it (symbolic/predictor.py). */
module Predictor {
  import opened Common
  import opened Skills
  import opened SkillIR
  import opened Snapshots
  import opened BoxPush

  // ---------------------------------------------------------------------------------------------
  // Push direction
  // ---------------------------------------------------------------------------------------------

  /** RIGHT, DOWN, LEFT, UP. */
  function Vector(d: int): Cell
    requires IsDirection(d)
  {
    if d == 0 then (1, 0) else if d == 1 then (0, 1) else if d == 2 then (-1, 0) else (0, -1)
  }

  function Abs(x: int): nat
  {
    if x < 0 then -x else x
  }

  function Manhattan(a: Cell, b: Cell): nat
  {
    Abs(a.0 - b.0) + Abs(a.1 - b.1)
  }

  /** `min` with a key: the first of the nearest cells. */
  function Nearest(box: Cell, zone: seq<Cell>): (c: Cell)
    requires zone != []
    ensures c in zone && forall z :: z in zone ==> Manhattan(box, c) <= Manhattan(box, z)
  {
    if |zone| == 1 then zone[0]
    else
      var rest := Nearest(box, zone[1..]);
      assert zone == [zone[0]] + zone[1..];
      if Manhattan(box, zone[0]) <= Manhattan(box, rest) then zone[0] else rest
  }

  function PushDir(box: Cell, zone: seq<Cell>): (d: int)
    requires zone != []
    ensures IsDirection(d)
  {
    var g := Nearest(box, zone);
    var dx, dy := g.0 - box.0, g.1 - box.1;
    if Abs(dx) >= Abs(dy) && dx != 0 then (if dx > 0 then 0 else 2)
    else if dy != 0 then (if dy > 0 then 1 else 3)
    else 2
  }

  function DistanceToZone(box: Cell, zone: seq<Cell>): nat
    requires zone != []
  {
    Manhattan(box, Nearest(box, zone))
  }

  function StepTowards(box: Cell, d: int): Cell
    requires IsDirection(d)
  {
    (box.0 + Vector(d).0, box.1 + Vector(d).1)
  }

  /** Among equally near zone cells the first listed one is aimed at. */
  lemma {:induction false} NearestIsFirst(box: Cell, zone: seq<Cell>) returns (i: nat)
    requires zone != []
    ensures i < |zone| && zone[i] == Nearest(box, zone)
    ensures forall k :: 0 <= k < i ==> Manhattan(box, zone[k]) > Manhattan(box, zone[i])
  {
    i := 0;
    if |zone| > 1 && Manhattan(box, zone[0]) > Manhattan(box, Nearest(box, zone[1..])) {
      var k := NearestIsFirst(box, zone[1..]);
      i := k + 1;
      assert forall m :: 0 <= m < k ==> zone[1..][m] == zone[m + 1];
    }
  }

  /** The push goes along the longer axis towards that cell, horizontally on a tie, and left from inside the zone. */
  lemma PushDirFollowsLongerAxis(box: Cell, zone: seq<Cell>)
    requires zone != []
    ensures box in zone ==> PushDir(box, zone) == 2
    ensures var g, d := Nearest(box, zone), PushDir(box, zone);
            && (d in {0, 2} <==> Abs(g.0 - box.0) >= Abs(g.1 - box.1))
            && (d in {0, 2} ==> Along(box, d, Abs(g.0 - box.0)).0 == g.0)
            && (d in {1, 3} ==> Along(box, d, Abs(g.1 - box.1)).1 == g.1)
  {
    if box in zone {
      NearestIsAt(box, zone);
    }
  }

  lemma NearestIsAt(box: Cell, zone: seq<Cell>)
    requires box in zone
    ensures Nearest(box, zone) == box
  {
    assert Manhattan(box, box) == 0;
  }

  /** One step along `push_dir` brings a box outside the zone exactly one closer to it. */
  lemma PushDirApproaches(box: Cell, zone: seq<Cell>)
    requires zone != [] && box !in zone
    ensures DistanceToZone(StepTowards(box, PushDir(box, zone)), zone) == DistanceToZone(box, zone) - 1
  {
    var next := StepTowards(box, PushDir(box, zone));
    var near, nearer := Nearest(box, zone), Nearest(next, zone);
    assert Manhattan(next, near) == Manhattan(box, near) - 1;
    assert Manhattan(box, nearer) <= Manhattan(next, nearer) + 1;
  }

  // ---------------------------------------------------------------------------------------------
  // First zone cell along a ray
  // ---------------------------------------------------------------------------------------------

  function Along(box: Cell, d: int, k: int): Cell
    requires IsDirection(d)
  {
    (box.0 + k * Vector(d).0, box.1 + k * Vector(d).1)
  }

  ghost predicate MissesBefore(box: Cell, d: int, zone: seq<Cell>, k: int)
    requires IsDirection(d)
  {
    forall m: int :: 0 < m < k ==> Along(box, d, m) !in zone
  }

  /** The zone cell at the least positive multiple of the direction, or none when no multiple hits. */
  ghost predicate IsFirstOnRay(box: Cell, d: int, zone: seq<Cell>, r: Option<Cell>)
    requires IsDirection(d)
  {
    match r
    case None => forall k: int :: k > 0 ==> Along(box, d, k) !in zone
    case Some(c) => c in zone && exists k: int :: k > 0 && c == Along(box, d, k) && MissesBefore(box, d, zone, k)
  }

  /** The step at which a cell lies on the ray; not positive when it does not. */
  function RayStep(box: Cell, d: int, c: Cell): (k: int)
    requires IsDirection(d)
    ensures k > 0 ==> c == Along(box, d, k)
    ensures forall m: int :: m > 0 && c == Along(box, d, m) ==> k == m
  {
    var v := Vector(d);
    var ox, oy := c.0 - box.0, c.1 - box.1;
    if (v.0 == 0 && ox != 0) || (v.1 == 0 && oy != 0) then 0 else ox * v.0 + oy * v.1
  }

  function FirstZoneCellAlong(box: Cell, d: int, zone: seq<Cell>): (r: Option<Cell>)
    requires IsDirection(d)
    ensures r.Some? ==> r.value in zone && RayStep(box, d, r.value) > 0
    ensures r.Some? ==> forall c :: c in zone && RayStep(box, d, c) > 0 ==>
              RayStep(box, d, r.value) <= RayStep(box, d, c)
    ensures r.None? ==> forall c :: c in zone ==> RayStep(box, d, c) <= 0
  {
    if zone == [] then None
    else
      var rest := FirstZoneCellAlong(box, d, zone[1..]);
      assert zone == [zone[0]] + zone[1..];
      if RayStep(box, d, zone[0]) > 0 && (rest.None? || RayStep(box, d, zone[0]) <= RayStep(box, d, rest.value))
      then Some(zone[0]) else rest
  }

  lemma FirstZoneCellIsFirst(box: Cell, d: int, zone: seq<Cell>)
    requires IsDirection(d)
    ensures IsFirstOnRay(box, d, zone, FirstZoneCellAlong(box, d, zone))
  {
    var r := FirstZoneCellAlong(box, d, zone);
    if r.Some? {
      var k := RayStep(box, d, r.value);
      forall m: int | 0 < m < k
        ensures Along(box, d, m) !in zone
      {
        assert RayStep(box, d, Along(box, d, m)) == m;
      }
    } else {
      forall k: int | k > 0
        ensures Along(box, d, k) !in zone
      {
        assert RayStep(box, d, Along(box, d, k)) == k;
      }
    }
  }

  lemma FirstOnRayUnique(box: Cell, d: int, zone: seq<Cell>, r: Option<Cell>, q: Option<Cell>)
    requires IsDirection(d) && IsFirstOnRay(box, d, zone, r) && IsFirstOnRay(box, d, zone, q)
    ensures r == q
  {
    if r.Some? && q.Some? {
      var k: int :| k > 0 && r.value == Along(box, d, k) && MissesBefore(box, d, zone, k);
      var n: int :| n > 0 && q.value == Along(box, d, n) && MissesBefore(box, d, zone, n);
      assert k == n;
    }
  }

  /** The source's form: collect the candidates on the ray, then take the least. */
  method FirstZoneCellAlongLoop(box: Cell, d: int, zone: seq<Cell>) returns (r: Option<Cell>)
    requires IsDirection(d)
    ensures r == FirstZoneCellAlong(box, d, zone)
  {
    var candidates: seq<(int, Cell)> := [];
    for i := 0 to |zone|
      invariant forall x :: x in candidates <==> x.0 > 0 && x.0 == RayStep(box, d, x.1) && x.1 in zone[..i]
    {
      var step := RayStep(box, d, zone[i]);
      assert zone[..i + 1] == zone[..i] + [zone[i]];
      if step > 0 {
        candidates := candidates + [(step, zone[i])];
      }
    }
    assert zone[..|zone|] == zone;
    FirstZoneCellIsFirst(box, d, zone);
    r := None;
    if candidates == [] {
      forall k: int | k > 0
        ensures Along(box, d, k) !in zone
      {
        assert RayStep(box, d, Along(box, d, k)) == k;
        assert (k, Along(box, d, k)) !in candidates;
      }
    } else {
      var best := candidates[0];
      for i := 1 to |candidates|
        invariant best in candidates
        invariant forall m :: 0 <= m < i ==> best.0 <= candidates[m].0
      {
        if candidates[i].0 < best.0 {
          best := candidates[i];
        }
      }
      r := Some(best.1);
      forall m: int | 0 < m < best.0
        ensures Along(box, d, m) !in zone
      {
        assert RayStep(box, d, Along(box, d, m)) == m;
        assert (m, Along(box, d, m)) !in candidates;
      }
      assert best.1 == Along(box, d, best.0) && best.1 in zone;
    }
    FirstOnRayUnique(box, d, zone, r, FirstZoneCellAlong(box, d, zone));
  }

  // ---------------------------------------------------------------------------------------------
  // World candidates
  // ---------------------------------------------------------------------------------------------

  /** The admissible terminal snapshots, or the exception the source raises instead. */
  datatype WorldPrediction = Candidates(worlds: seq<StateSnapshot>) | RaisesValueError | RaisesKeyError

  function Behind(c: Cell, d: int, k: int): Cell
    requires IsDirection(d)
  {
    Along(c, d, -k)
  }

  function PredictGoto(s: StateSnapshot, agent: AgentId, box: BoxSnapshot): WorldPrediction
  {
    if s.world.deliveryZone == [] then RaisesValueError
    else
      var d := PushDir(box.position, s.world.deliveryZone);
      Candidates([WithAgent(s, agent, Behind(box.position, d, 1), d)])
  }

  /** The direction of a push is the agent's facing; a ray that misses the zone predicts nothing. */
  function PredictPush(s: StateSnapshot, agent: AgentSnapshot, box: BoxSnapshot): WorldPrediction
    requires IsDirection(agent.direction)
  {
    var d := agent.direction;
    match FirstZoneCellAlong(box.position, d, s.world.deliveryZone)
    case None => Candidates([])
    case Some(landing) =>
      Candidates([WithAgent(WithBox(s, box.id, landing, true), agent.id, Behind(landing, d, 1), d)])
  }

  /** Two candidates: the front and rear roles are not predictable. */
  function PredictCooperativePush(s: StateSnapshot, first: AgentId, second: AgentId, box: BoxSnapshot): WorldPrediction
  {
    if s.world.deliveryZone == [] then RaisesValueError
    else
      var d := PushDir(box.position, s.world.deliveryZone);
      match FirstZoneCellAlong(box.position, d, s.world.deliveryZone)
      case None => Candidates([])
      case Some(landing) =>
        var front, rear := Behind(landing, d, 1), Behind(landing, d, 2);
        var base := WithBox(s, box.id, landing, true);
        Candidates([WithAgent(WithAgent(base, first, front, d), second, rear, d),
                    WithAgent(WithAgent(base, first, rear, d), second, front, d)])
  }

  function PredictWorldCandidates(s: StateSnapshot, c: GroundedSkillCall, zone: ZoneId): WorldPrediction
  {
    if c.zone.Some? && c.zone.value != zone then RaisesValueError
    else if !IsSymbolic(c) then Candidates([])
    else if c.skill == Push && FindAgent(s.agents, c.agents[0]).None? then RaisesKeyError
    else
      match FindBox(s.boxes, c.box.value)
      case None => RaisesKeyError
      case Some(box) =>
        if c.skill == GotoPushPose then PredictGoto(s, c.agents[0], box)
        else if c.skill == Push then PredictPush(s, FindAgent(s.agents, c.agents[0]).value, box)
        else PredictCooperativePush(s, c.agents[0], c.agents[1], box)
  }

  // ---------------------------------------------------------------------------------------------
  // The two bases commute
  // ---------------------------------------------------------------------------------------------

  lemma SameIdsSamePart(agents: seq<AgentSnapshot>, moved: seq<AgentSnapshot>)
    requires |agents| == |moved| && forall i :: 0 <= i < |agents| ==> agents[i].id == moved[i].id
    ensures AgentPart(agents, agents) <= AgentPart(moved, moved)
  {
    forall l | l in AgentPart(agents, agents)
      ensures l in AgentPart(moved, moved)
    {
      var a, o :| a in agents && o in agents && a.id != o.id && l == DifferentOf(a.id, o.id);
      var i :| 0 <= i < |agents| && agents[i] == a;
      var k :| 0 <= k < |agents| && agents[k] == o;
      assert moved[i] in moved && moved[k] in moved;
    }
  }

  lemma AgentMoveIsInvisible(s: StateSnapshot, id: AgentId, position: Cell, direction: int)
    requires IsDirection(direction)
    ensures Project(WithAgent(s, id, position, direction)) == Project(s)
  {
    var t := WithAgent(s, id, position, direction);
    SameIdsSamePart(s.agents, t.agents);
    SameIdsSamePart(t.agents, s.agents);
  }

  lemma DeliverOne(b: BoxSnapshot, id: BoxId, position: Cell)
    ensures b.id == id ==>
      BoxFacts(b.(position := position, delivered := true)) == BoxFacts(b) + {DeliveredOf(id)} - {PendingOf(id)}
    ensures b.id != id ==> BoxFacts(b) == BoxFacts(b) + {} - {PendingOf(id)} && DeliveredOf(id) !in BoxFacts(b)
  {
  }

  lemma DeliveryProjects(s: StateSnapshot, id: BoxId, position: Cell)
    requires FindBox(s.boxes, id).Some?
    ensures Project(WithBox(s, id, position, true)) == Project(s) + {DeliveredOf(id)} - {PendingOf(id)}
  {
    DeliveryAdds(s, id, position);
    DeliveryAddsOnly(s, id, position);
    assert DeliveredOf(id) !in AgentPart(s.agents, s.agents) && PendingOf(id) !in AgentPart(s.agents, s.agents);
  }

  lemma DeliveryAdds(s: StateSnapshot, id: BoxId, position: Cell)
    requires FindBox(s.boxes, id).Some?
    ensures BoxPart(s.boxes) + {DeliveredOf(id)} - {PendingOf(id)} <= BoxPart(WithBox(s, id, position, true).boxes)
  {
    var t := WithBox(s, id, position, true);
    forall l | l in BoxPart(s.boxes) + {DeliveredOf(id)} - {PendingOf(id)}
      ensures l in BoxPart(t.boxes)
    {
      var b: BoxSnapshot;
      if l in BoxPart(s.boxes) {
        b :| b in s.boxes && l in BoxFacts(b);
      } else {
        b := FindBox(s.boxes, id).value;
      }
      DeliverOne(b, id, position);
      var i :| 0 <= i < |s.boxes| && s.boxes[i] == b;
      assert t.boxes[i] in t.boxes && l in BoxFacts(t.boxes[i]);
    }
  }

  lemma DeliveryAddsOnly(s: StateSnapshot, id: BoxId, position: Cell)
    ensures BoxPart(WithBox(s, id, position, true).boxes) <= BoxPart(s.boxes) + {DeliveredOf(id)} - {PendingOf(id)}
  {
    var t := WithBox(s, id, position, true);
    forall l | l in BoxPart(t.boxes)
      ensures l in BoxPart(s.boxes) + {DeliveredOf(id)} - {PendingOf(id)}
    {
      var b :| b in t.boxes && l in BoxFacts(b);
      var i :| 0 <= i < |t.boxes| && t.boxes[i] == b;
      DeliverOne(s.boxes[i], id, position);
      assert s.boxes[i] in s.boxes;
    }
  }

  lemma GotoProjects(s: StateSnapshot, agent: AgentId, box: BoxSnapshot)
    ensures PredictGoto(s, agent, box).Candidates? ==>
      forall w :: w in PredictGoto(s, agent, box).worlds ==> Project(w) == Project(s)
  {
    if s.world.deliveryZone != [] {
      var d := PushDir(box.position, s.world.deliveryZone);
      AgentMoveIsInvisible(s, agent, Behind(box.position, d, 1), d);
    }
  }

  lemma PushProjects(s: StateSnapshot, agent: AgentSnapshot, box: BoxSnapshot)
    requires IsDirection(agent.direction) && FindBox(s.boxes, box.id).Some?
    ensures forall w :: w in PredictPush(s, agent, box).worlds ==>
      Project(w) == Project(s) + {DeliveredOf(box.id)} - {PendingOf(box.id)}
  {
    hide Project;
    var d := agent.direction;
    var landing := FirstZoneCellAlong(box.position, d, s.world.deliveryZone);
    if landing.Some? {
      DeliveryProjects(s, box.id, landing.value);
      AgentMoveIsInvisible(WithBox(s, box.id, landing.value, true), agent.id, Behind(landing.value, d, 1), d);
    }
  }

  lemma CooperativePushProjects(s: StateSnapshot, first: AgentId, second: AgentId, box: BoxSnapshot)
    requires FindBox(s.boxes, box.id).Some? && PredictCooperativePush(s, first, second, box).Candidates?
    ensures forall w :: w in PredictCooperativePush(s, first, second, box).worlds ==>
      Project(w) == Project(s) + {DeliveredOf(box.id)} - {PendingOf(box.id)}
  {
    hide Project;
    var d := PushDir(box.position, s.world.deliveryZone);
    var landing := FirstZoneCellAlong(box.position, d, s.world.deliveryZone);
    if landing.Some? {
      var front, rear := Behind(landing.value, d, 1), Behind(landing.value, d, 2);
      var base := WithBox(s, box.id, landing.value, true);
      DeliveryProjects(s, box.id, landing.value);
      AgentMoveIsInvisible(base, first, front, d);
      AgentMoveIsInvisible(WithAgent(base, first, front, d), second, rear, d);
      AgentMoveIsInvisible(base, first, rear, d);
      AgentMoveIsInvisible(WithAgent(base, first, rear, d), second, front, d);
    }
  }

  /**
    Geometry and symbols commute: for every snapshot, every tracked literal set and every symbolic
    call, each world candidate projects to the monitored view of the symbolic successor.
  */
  lemma CandidatesCommute(s: StateSnapshot, tracked: SymbolicState, c: GroundedSkillCall, zone: ZoneId,
    w: StateSnapshot)
    requires IsSymbolic(c) && OnlyTracked(PROJECTION, tracked)
    requires PredictWorldCandidates(s, c, zone).Candidates? && w in PredictWorldCandidates(s, c, zone).worlds
    ensures Project(w) == MonitoredView(PROJECTION, Project(s) + tracked + Adds(c) - Deletes(c))
  {
    var box := FindBox(s.boxes, c.box.value).value;
    SuccessorView(s, tracked, c);
    if c.skill == GotoPushPose {
      GotoProjects(s, c.agents[0], box);
    } else if c.skill == Push {
      PushProjects(s, FindAgent(s.agents, c.agents[0]).value, box);
    } else {
      CooperativePushProjects(s, c.agents[0], c.agents[1], box);
    }
  }

  lemma SuccessorView(s: StateSnapshot, tracked: SymbolicState, c: GroundedSkillCall)
    requires IsSymbolic(c) && OnlyTracked(PROJECTION, tracked)
    ensures MonitoredView(PROJECTION, Project(s) + tracked + Adds(c) - Deletes(c)) ==
            if c.skill == GotoPushPose then Project(s)
            else Project(s) + {DeliveredOf(c.box.value)} - {PendingOf(c.box.value)}
  {
    ProjectIsMonitored(s);
    ViewOfSuccessor(Project(s), tracked, c);
  }

  lemma ViewOfSuccessor(projected: SymbolicState, tracked: SymbolicState, c: GroundedSkillCall)
    requires IsSymbolic(c) && OnlyTracked(PROJECTION, tracked) && MonitoredView(PROJECTION, projected) == projected
    ensures MonitoredView(PROJECTION, projected + tracked + Adds(c) - Deletes(c)) ==
            if c.skill == GotoPushPose then projected
            else projected + {DeliveredOf(c.box.value)} - {PendingOf(c.box.value)}
  {
    assert forall l :: l in projected ==> l.name in PROJECTION.projectable;
  }

  // ---------------------------------------------------------------------------------------------
  // Where the candidates put things
  // ---------------------------------------------------------------------------------------------

  /** The named agent stands `k` cells before `cell`, facing it, and everybody else is where they were. */
  ghost predicate Stands(s: StateSnapshot, w: StateSnapshot, i: int, cell: Cell, d: int, k: int)
    requires IsDirection(d) && 0 <= i < |s.agents| == |w.agents|
  {
    w.agents[i].id == s.agents[i].id && w.agents[i].direction == d && Along(w.agents[i].position, d, k) == cell
  }

  /** A walk to the push pose: the agent ends right behind the box, facing the way the box must go. */
  lemma GotoGeometry(s: StateSnapshot, c: GroundedSkillCall, zone: ZoneId, w: StateSnapshot, i: int)
    requires c.skill == GotoPushPose && PredictWorldCandidates(s, c, zone).Candidates?
    requires w in PredictWorldCandidates(s, c, zone).worlds && 0 <= i < |s.agents|
    ensures |w.agents| == |s.agents| && w.boxes == s.boxes && w.world == s.world && s.world.deliveryZone != []
    ensures var box := FindBox(s.boxes, c.box.value).value;
            if s.agents[i].id == c.agents[0] then Stands(s, w, i, box.position,
              PushDir(box.position, s.world.deliveryZone), 1)
            else w.agents[i] == s.agents[i]
  {
  }

  /** What a delivery does to the boxes: the pushed one lands on a zone cell, the others stay. */
  ghost predicate Lands(s: StateSnapshot, w: StateSnapshot, b: BoxId, d: int, landing: Cell)
    requires IsDirection(d)
  {
    && |w.boxes| == |s.boxes| && w.world == s.world && FindBox(s.boxes, b).Some?
    && IsFirstOnRay(FindBox(s.boxes, b).value.position, d, s.world.deliveryZone, Some(landing))
    && forall j :: 0 <= j < |s.boxes| ==>
         w.boxes[j] == if s.boxes[j].id == b then s.boxes[j].(position := landing, delivered := true) else s.boxes[j]
  }

  /** Some zone cell lies ahead on this ray. */
  ghost predicate RayMeetsZone(s: StateSnapshot, from: Cell, d: int)
    requires IsDirection(d)
  {
    exists k: int :: k > 0 && Along(from, d, k) in s.world.deliveryZone
  }

  lemma MeetsZoneIff(s: StateSnapshot, from: Cell, d: int)
    requires IsDirection(d)
    ensures FirstZoneCellAlong(from, d, s.world.deliveryZone).Some? <==> RayMeetsZone(s, from, d)
  {
    FirstZoneCellIsFirst(from, d, s.world.deliveryZone);
  }

  /**
    How many worlds are predicted, and when the prediction raises instead: a ValueError for a foreign zone,
    or for a push direction without a delivery zone; a KeyError for an unknown box or an unknown pusher. A
    walk has one world, a push one and a cooperative push two - if the ray meets the zone, and none if not.
  */
  lemma PredictionCount(s: StateSnapshot, c: GroundedSkillCall, zone: ZoneId)
    ensures var foreign := c.zone.Some? && c.zone.value != zone;
            var unknown := IsSymbolic(c) && (FindBox(s.boxes, c.box.value).None?
                             || (c.skill == Push && FindAgent(s.agents, c.agents[0]).None?));
            var undirected := IsSymbolic(c) && c.skill in {GotoPushPose, CooperativePush} && s.world.deliveryZone == [];
            match PredictWorldCandidates(s, c, zone)
            case RaisesValueError => foreign || (!unknown && undirected)
            case RaisesKeyError => !foreign && unknown
            case Candidates(worlds) =>
              && !foreign && !unknown && !undirected
              && (!IsSymbolic(c) ==> worlds == [])
              && (c.skill == GotoPushPose ==> |worlds| == 1)
              && (c.skill == Push ==>
                    var meets := RayMeetsZone(s, FindBox(s.boxes, c.box.value).value.position,
                                   FindAgent(s.agents, c.agents[0]).value.direction);
                    |worlds| == if meets then 1 else 0)
              && (c.skill == CooperativePush ==>
                    var at := FindBox(s.boxes, c.box.value).value.position;
                    |worlds| == if RayMeetsZone(s, at, PushDir(at, s.world.deliveryZone)) then 2 else 0)
  {
    hide PushDir, FirstZoneCellAlong, RayMeetsZone;
    if IsSymbolic(c) && FindBox(s.boxes, c.box.value).Some? {
      var at := FindBox(s.boxes, c.box.value).value.position;
      if c.skill == Push && FindAgent(s.agents, c.agents[0]).Some? {
        MeetsZoneIff(s, at, FindAgent(s.agents, c.agents[0]).value.direction);
      } else if s.world.deliveryZone != [] {
        MeetsZoneIff(s, at, PushDir(at, s.world.deliveryZone));
      }
    }
  }

  /** A push: along the agent's own facing, to the first zone cell of that ray, the agent right behind. */
  lemma PushGeometry(s: StateSnapshot, c: GroundedSkillCall, zone: ZoneId, w: StateSnapshot, i: int)
    returns (landing: Cell)
    requires c.skill == Push && PredictWorldCandidates(s, c, zone).Candidates?
    requires w in PredictWorldCandidates(s, c, zone).worlds && 0 <= i < |s.agents|
    ensures |w.agents| == |s.agents| && FindAgent(s.agents, c.agents[0]).Some?
    ensures var d := FindAgent(s.agents, c.agents[0]).value.direction;
            && IsDirection(d) && Lands(s, w, c.box.value, d, landing)
            && if s.agents[i].id == c.agents[0] then Stands(s, w, i, landing, d, 1) else w.agents[i] == s.agents[i]
  {
    hide PushDir, FirstZoneCellAlong, IsFirstOnRay, RayStep;
    var d := FindAgent(s.agents, c.agents[0]).value.direction;
    var box := FindBox(s.boxes, c.box.value).value;
    FirstZoneCellIsFirst(box.position, d, s.world.deliveryZone);
    landing := FirstZoneCellAlong(box.position, d, s.world.deliveryZone).value;
  }

  /** A cooperative push: two candidates, in which the pair stands one and two cells behind, either way round. */
  lemma CooperativePushGeometry(s: StateSnapshot, c: GroundedSkillCall, zone: ZoneId, i: int) returns (landing: Cell)
    requires c.skill == CooperativePush && PredictWorldCandidates(s, c, zone).Candidates?
    requires PredictWorldCandidates(s, c, zone).worlds != [] && 0 <= i < |s.agents|
    ensures var worlds := PredictWorldCandidates(s, c, zone).worlds;
            && |worlds| == 2 && |worlds[0].agents| == |worlds[1].agents| == |s.agents|
            && s.world.deliveryZone != [] && FindBox(s.boxes, c.box.value).Some?
    ensures var worlds := PredictWorldCandidates(s, c, zone).worlds;
            var d := PushDir(FindBox(s.boxes, c.box.value).value.position, s.world.deliveryZone);
            && Lands(s, worlds[0], c.box.value, d, landing) && Lands(s, worlds[1], c.box.value, d, landing)
            && (s.agents[i].id == c.agents[0] ==>
                  Stands(s, worlds[0], i, landing, d, 1) && Stands(s, worlds[1], i, landing, d, 2))
            && (s.agents[i].id == c.agents[1] ==>
                  Stands(s, worlds[0], i, landing, d, 2) && Stands(s, worlds[1], i, landing, d, 1))
            && (s.agents[i].id !in c.agents ==> worlds[0].agents[i] == worlds[1].agents[i] == s.agents[i])
  {
    hide PushDir, FirstZoneCellAlong, IsFirstOnRay, RayStep, WithAgent, WithBox, StringLess, Lands, FindBox;
    var box := FindBox(s.boxes, c.box.value).value;
    var d := PushDir(box.position, s.world.deliveryZone);
    FirstZoneCellIsFirst(box.position, d, s.world.deliveryZone);
    landing := FirstZoneCellAlong(box.position, d, s.world.deliveryZone).value;
    var base := WithBox(s, c.box.value, landing, true);
    var front, rear := Behind(landing, d, 1), Behind(landing, d, 2);
    StringOrder(c.agents[0], c.agents[0]);
    TwoPlaced(s, base, c.agents[0], c.agents[1], front, rear, d, i);
    TwoPlaced(s, base, c.agents[0], c.agents[1], rear, front, d, i);
    BoxLands(s, base, PredictWorldCandidates(s, c, zone).worlds[0], c.box.value, d, landing);
    BoxLands(s, base, PredictWorldCandidates(s, c, zone).worlds[1], c.box.value, d, landing);
  }

  lemma BoxLands(s: StateSnapshot, base: StateSnapshot, w: StateSnapshot, b: BoxId, d: int, landing: Cell)
    requires IsDirection(d) && FindBox(s.boxes, b).Some?
    requires base == WithBox(s, b, landing, true) && w.boxes == base.boxes && w.world == base.world
    requires IsFirstOnRay(FindBox(s.boxes, b).value.position, d, s.world.deliveryZone, Some(landing))
    ensures Lands(s, w, b, d, landing)
  {
  }

  lemma TwoPlaced(s: StateSnapshot, base: StateSnapshot, first: AgentId, second: AgentId, x: Cell, y: Cell, d: int,
    i: int)
    requires IsDirection(d) && first != second && base.agents == s.agents && 0 <= i < |s.agents|
    ensures var w := WithAgent(WithAgent(base, first, x, d), second, y, d);
            && |w.agents| == |s.agents| && w.boxes == base.boxes && w.world == base.world
            && w.agents[i] == if s.agents[i].id == first then AgentSnapshot(first, x, d)
                              else if s.agents[i].id == second then AgentSnapshot(second, y, d) else s.agents[i]
  {
  }
}
