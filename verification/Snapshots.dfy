/** The canonical world snapshot and its surgery (shared/state_snapshot.py, symbolic/predictor.py). */
module Snapshots {
  import opened Common
  import opened Skills


  datatype AgentSnapshot = AgentSnapshot(id: AgentId, position: Cell, direction: int)

  datatype BoxSnapshot = BoxSnapshot(id: BoxId, position: Cell, required: int, isTarget: bool, delivered: bool)

  datatype StaticWorld = StaticWorld(width: int, height: int, walls: seq<Cell>, deliveryZone: seq<Cell>)

  datatype Episode = Episode(stepCount: nat, terminated: bool, truncated: bool)

  datatype SnapshotRecord = Snapshot(
    agents: seq<AgentSnapshot>, boxes: seq<BoxSnapshot>, world: StaticWorld, episode: Episode)

  predicate IsDirection(d: int)
  {
    0 <= d <= 3
  }

  /** What the constructors guarantee: identities sorted and unique, fields in range. */
  predicate ValidSnapshot(s: SnapshotRecord)
  {
    && (forall i, j :: 0 <= i < j < |s.agents| ==> StringLess(s.agents[i].id, s.agents[j].id))
    && (forall i, j :: 0 <= i < j < |s.boxes| ==> s.boxes[i].id < s.boxes[j].id)
    && (forall i :: 0 <= i < |s.agents| ==> s.agents[i].id != "" && IsDirection(s.agents[i].direction))
    && (forall i :: 0 <= i < |s.boxes| ==> s.boxes[i].required >= 1)
  }

  type StateSnapshot = s: SnapshotRecord | ValidSnapshot(s)
    witness Snapshot([], [], StaticWorld(1, 1, [], []), Episode(0, false, false))

  /** Two agents and two boxes, listed by identity, make a snapshot: the constructors refuse order and range only. */
  lemma PairsAreSnapshots(a: AgentSnapshot, b: AgentSnapshot, x: BoxSnapshot, y: BoxSnapshot, w: StaticWorld,
    e: Episode)
    requires a.id != "" && b.id != "" && IsDirection(a.direction) && IsDirection(b.direction)
    requires x.required >= 1 && y.required >= 1
    ensures ValidSnapshot(Snapshot([a, b], [x, y], w, e)) <==> StringLess(a.id, b.id) && x.id < y.id
    ensures forall d: int :: IsDirection(d) <==> d in {0, 1, 2, 3}
  {
    var s := Snapshot([a, b], [x, y], w, e);
    assert s.agents[0] == a && s.agents[1] == b && s.boxes[0] == x && s.boxes[1] == y;
  }

  /** The content of `world_key`: everything except the episode bookkeeping. */
  datatype World = World(agents: seq<AgentSnapshot>, boxes: seq<BoxSnapshot>, world: StaticWorld)

  function WorldKey(s: StateSnapshot): World
  {
    World(s.agents, s.boxes, s.world)
  }

  function FindAgent(agents: seq<AgentSnapshot>, id: AgentId): (r: Option<AgentSnapshot>)
    ensures r.Some? ==> r.value in agents && r.value.id == id
    ensures r.None? ==> forall i :: 0 <= i < |agents| ==> agents[i].id != id
  {
    if agents == [] then None else if agents[0].id == id then Some(agents[0]) else FindAgent(agents[1..], id)
  }

  function FindBox(boxes: seq<BoxSnapshot>, id: BoxId): (r: Option<BoxSnapshot>)
    ensures r.Some? ==> r.value in boxes && r.value.id == id
    ensures r.None? ==> forall i :: 0 <= i < |boxes| ==> boxes[i].id != id
  {
    if boxes == [] then None else if boxes[0].id == id then Some(boxes[0]) else FindBox(boxes[1..], id)
  }

  function AgentIds(s: StateSnapshot): (ids: seq<AgentId>)
    ensures |ids| == |s.agents| && forall i :: 0 <= i < |ids| ==> ids[i] == s.agents[i].id
  {
    seq(|s.agents|, i requires 0 <= i < |s.agents| => s.agents[i].id)
  }

  function BoxIds(s: StateSnapshot): (ids: seq<BoxId>)
    ensures |ids| == |s.boxes| && forall i :: 0 <= i < |ids| ==> ids[i] == s.boxes[i].id
  {
    seq(|s.boxes|, i requires 0 <= i < |s.boxes| => s.boxes[i].id)
  }

  /** Identities are unique, so the lookup returns the only agent with this identity. */
  lemma AgentIsUnique(s: StateSnapshot, a: AgentSnapshot)
    requires a in s.agents
    ensures FindAgent(s.agents, a.id) == Some(a)
  {
    var i :| 0 <= i < |s.agents| && s.agents[i] == a;
    var r := FindAgent(s.agents, a.id);
    var k :| 0 <= k < |s.agents| && s.agents[k] == r.value;
    StringOrder(a.id, a.id);
  }

  lemma BoxIsUnique(s: StateSnapshot, b: BoxSnapshot)
    requires b in s.boxes
    ensures FindBox(s.boxes, b.id) == Some(b)
  {
    var i :| 0 <= i < |s.boxes| && s.boxes[i] == b;
    var r := FindBox(s.boxes, b.id);
    var k :| 0 <= k < |s.boxes| && s.boxes[k] == r.value;
  }

  /** Move one agent; the constructor's sort is the identity because no identity changes. */
  function WithAgent(s: StateSnapshot, id: AgentId, position: Cell, direction: int): (t: StateSnapshot)
    requires IsDirection(direction)
    ensures |t.agents| == |s.agents| && t.boxes == s.boxes && t.world == s.world && t.episode == s.episode
    ensures forall i :: 0 <= i < |s.agents| ==>
      t.agents[i] == if s.agents[i].id == id then AgentSnapshot(id, position, direction) else s.agents[i]
  {
    s.(agents := seq(|s.agents|, i requires 0 <= i < |s.agents| =>
      if s.agents[i].id == id then AgentSnapshot(id, position, direction) else s.agents[i]))
  }

  function WithBox(s: StateSnapshot, id: BoxId, position: Cell, delivered: bool): (t: StateSnapshot)
    ensures |t.boxes| == |s.boxes| && t.agents == s.agents && t.world == s.world && t.episode == s.episode
    ensures forall i :: 0 <= i < |s.boxes| ==>
      t.boxes[i] ==
        if s.boxes[i].id == id then s.boxes[i].(position := position, delivered := delivered) else s.boxes[i]
  {
    s.(boxes := seq(|s.boxes|, i requires 0 <= i < |s.boxes| =>
      if s.boxes[i].id == id then s.boxes[i].(position := position, delivered := delivered) else s.boxes[i]))
  }
}
