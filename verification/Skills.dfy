/** Identities, grounded skill calls and validation verdicts (shared/ids.py, shared/skills.py). */
module Skills {
  import opened Common

  type AgentId = string
  type BoxId = nat
  type ZoneId = string

  datatype SkillName = GotoPushPose | Push | CooperativePush | Explore | Wait

  /** Python's order on strings: by code point, a proper prefix first. */
  predicate StringLess(a: string, b: string)
  {
    b != [] && (a == [] || a[0] < b[0] || (a[0] == b[0] && StringLess(a[1..], b[1..])))
  }

  lemma {:induction false} StringOrder(a: string, b: string)
    ensures StringLess(a, b) || a == b || StringLess(b, a)
    ensures !(StringLess(a, b) && StringLess(b, a))
    ensures !StringLess(a, a)
  {
    if a != [] {
      StringOrder(a[1..], a[1..]);
      if b != [] {
        StringOrder(a[1..], b[1..]);
        assert a == [a[0]] + a[1..] && b == [b[0]] + b[1..];
      }
    }
  }

  /** Equal up to `k`, where the first ends or has the smaller character. */
  ghost predicate LessAt(a: string, b: string, k: int)
  {
    0 <= k <= |a| && k < |b| && a[..k] == b[..k] && (k == |a| || a[k] < b[k])
  }

  /** The order is that of the first difference, and a proper prefix comes first. */
  lemma {:induction false} StringLessIff(a: string, b: string)
    ensures StringLess(a, b) <==> exists k :: LessAt(a, b, k)
  {
    if a != [] && b != [] && a[0] == b[0] {
      StringLessIff(a[1..], b[1..]);
      forall k: int
        ensures LessAt(a, b, k) <==> LessAt(a[1..], b[1..], k - 1)
      {
        LessAtTail(a, b, k);
      }
      if StringLess(a[1..], b[1..]) {
        var k :| LessAt(a[1..], b[1..], k);
        assert LessAt(a, b, k + 1);
      }
    } else {
      forall k: int
        ensures LessAt(a, b, k) ==> k == 0
      {
        if 0 < k <= |a| && k < |b| { assert a[..k][0] == a[0] && b[..k][0] == b[0]; }
      }
      assert b != [] && StringLess(a, b) ==> LessAt(a, b, 0);
    }
  }

  lemma LessAtTail(a: string, b: string, k: int)
    requires a != [] && b != [] && a[0] == b[0]
    ensures LessAt(a, b, k) <==> LessAt(a[1..], b[1..], k - 1)
  {
    if 0 < k <= |a| && k < |b| {
      assert a[..k] == [a[0]] + a[1..][..k - 1] && b[..k] == [b[0]] + b[1..][..k - 1];
      assert a[1..][..k - 1] == a[..k][1..] && b[1..][..k - 1] == b[..k][1..];
    }
  }

  lemma {:induction false} StringLessTransitive(a: string, b: string, c: string)
    requires StringLess(a, b) && StringLess(b, c)
    ensures StringLess(a, c)
  {
    if a != [] && a[0] == b[0] == c[0] {
      StringLessTransitive(a[1..], b[1..], c[1..]);
    }
  }

  function SkillText(name: SkillName): string
  {
    match name
    case GotoPushPose => "GotoPushPose"
    case Push => "Push"
    case CooperativePush => "CooperativePush"
    case Explore => "Explore"
    case Wait => "Wait"
  }

  /** Call-facing parameters of the frozen registry: how many agents, and whether a box and a zone. */
  function AgentCount(skill: SkillName): nat
  {
    if skill == CooperativePush then 2 else 1
  }

  predicate TakesBoxAndZone(skill: SkillName)
  {
    skill in {GotoPushPose, Push, CooperativePush}
  }

  datatype CallRecord = Call(skill: SkillName, agents: seq<AgentId>, box: Option<BoxId>, zone: Option<ZoneId>)

  /** What the constructor of a grounded call guarantees, the canonical agent pair included. */
  predicate WellFormed(c: CallRecord)
  {
    && |c.agents| == AgentCount(c.skill)
    && (forall i :: 0 <= i < |c.agents| ==> c.agents[i] != "")
    && (c.skill == CooperativePush ==> StringLess(c.agents[0], c.agents[1]))
    && c.box.Some? == TakesBoxAndZone(c.skill)
    && c.zone.Some? == TakesBoxAndZone(c.skill)
    && (c.zone.Some? ==> c.zone.value != "")
  }

  type GroundedSkillCall = c: CallRecord | WellFormed(c) witness Call(Wait, ["a"], None, None)

  function CanonicalPair(a: AgentId, b: AgentId): (AgentId, AgentId)
  {
    if StringLess(b, a) then (b, a) else (a, b)
  }

  /** The constructor: `None` where it raises. */
  function MakeCall(skill: SkillName, agents: seq<AgentId>, box: Option<BoxId>,
    zone: Option<ZoneId>): (r: Option<GroundedSkillCall>)
    requires forall i :: 0 <= i < |agents| ==> agents[i] != ""
    requires zone.Some? ==> zone.value != ""
    ensures r.Some? <==>
            && |agents| == AgentCount(skill) && box.Some? == zone.Some? == TakesBoxAndZone(skill)
            && (skill == CooperativePush ==> agents[0] != agents[1])
    ensures r.Some? ==> r.value.agents == agents || (|agents| == 2 && r.value.agents == [agents[1], agents[0]])
    ensures WellFormed(Call(skill, agents, box, zone)) ==> r == Some(Call(skill, agents, box, zone))
  {
    if |agents| != AgentCount(skill) || box.Some? != TakesBoxAndZone(skill)
       || zone.Some? != TakesBoxAndZone(skill) then None
    else if skill == CooperativePush then
      StringOrder(agents[0], agents[1]);
      assert agents == [agents[0], agents[1]];
      if agents[0] == agents[1] then None
      else
        var pair := CanonicalPair(agents[0], agents[1]);
        Some(Call(skill, [pair.0, pair.1], box, zone))
    else Some(Call(skill, agents, box, zone))
  }

  /** Both orders of an agent pair give one and the same call. */
  lemma PairOrderIsIrrelevant(a: AgentId, b: AgentId, box: Option<BoxId>, zone: Option<ZoneId>)
    requires a != "" && b != "" && (zone.Some? ==> zone.value != "")
    ensures MakeCall(CooperativePush, [a, b], box, zone) == MakeCall(CooperativePush, [b, a], box, zone)
  {
    StringOrder(a, b);
  }

  /** Decision 7 verdicts on a call. */
  datatype CallValidation = ValidatedCall | MalformedCall | UngroundedCall | SymbolicallyInapplicable
    | OutsideSymbolicModel
  {
    predicate IsPreExecutorRejection() {
      MalformedCall? || UngroundedCall? || SymbolicallyInapplicable?
    }
  }
}
