/**
  The text form of a grounded call: printer and parser (nl/parser.py, shared/skills.py, shared/ids.py).

  The parser accepts more than the printer produces: blanks around every part, slots in any order, a
  repeated slot whose last occurrence wins, and every spelling of an integer that Python's `int`
  takes in ASCII digits. It normalises all of them to one call or rejects the text.
*/
module CallText {
  import opened Common
  import opened Skills

  datatype ParseResult = Parsed(call: GroundedSkillCall) | Malformed

  // ---------------------------------------------------------------------------------------------
  // Characters and blanks
  // ---------------------------------------------------------------------------------------------

  /** White space as `strip` and the pattern's `\s` see it. */
  predicate IsSpace(c: char)
  {
    var n := c as int;
    || 0x09 <= n <= 0x0D || 0x1C <= n <= 0x20 || n == 0x85 || n == 0xA0 || n == 0x1680 || 0x2000 <= n <= 0x200A
    || n == 0x2028 || n == 0x2029 || n == 0x202F || n == 0x205F || n == 0x3000
  }

  predicate IsNameChar(c: char)
  {
    'A' <= c <= 'Z' || 'a' <= c <= 'z' || c == '_'
  }

  predicate IsDigit(c: char)
  {
    '0' <= c <= '9'
  }

  function LeftStrip(s: string): string
  {
    if s != [] && IsSpace(s[0]) then LeftStrip(s[1..]) else s
  }

  function RightStrip(s: string): string
    decreases |s|
  {
    if s != [] && IsSpace(Last(s)) then RightStrip(Init(s)) else s
  }

  function Strip(s: string): string
  {
    RightStrip(LeftStrip(s))
  }

  /** Neither end is blank. */
  predicate Trimmed(s: string)
  {
    s != [] ==> !IsSpace(s[0]) && !IsSpace(Last(s))
  }

  lemma {:induction false} LeftStripPart(s: string)
    ensures LeftStrip(s) != [] ==> !IsSpace(LeftStrip(s)[0])
    ensures |LeftStrip(s)| <= |s| && s[|s| - |LeftStrip(s)|..] == LeftStrip(s)
  {
    if s != [] && IsSpace(s[0]) { LeftStripPart(s[1..]); }
  }

  lemma {:induction false} RightStripPart(s: string)
    ensures RightStrip(s) != [] ==> !IsSpace(Last(RightStrip(s)))
    ensures RightStrip(s) <= s
    decreases |s|
  {
    if s != [] && IsSpace(Last(s)) { RightStripPart(Init(s)); }
  }

  /** A stripped text is trimmed, and its characters all come from the text. */
  lemma StripTrims(s: string)
    ensures Trimmed(Strip(s)) && forall c :: c in Strip(s) ==> c in s
  {
    LeftStripPart(s);
    RightStripPart(LeftStrip(s));
  }

  lemma StripFixes(s: string)
    requires Trimmed(s)
    ensures Strip(s) == s
  {
  }

  // ---------------------------------------------------------------------------------------------
  // Splitting
  // ---------------------------------------------------------------------------------------------

  function IndexOf(s: string, c: char): (i: nat)
    ensures i <= |s| && (i < |s| <==> c in s) && (i < |s| ==> s[i] == c)
    ensures forall k :: 0 <= k < i ==> s[k] != c
  {
    if s == [] || s[0] == c then 0 else 1 + IndexOf(s[1..], c)
  }

  function Split(s: string, sep: char): (parts: seq<string>)
    ensures parts != []
    decreases |s|
  {
    var i := IndexOf(s, sep);
    if i == |s| then [s] else [s[..i]] + Split(s[i + 1..], sep)
  }

  lemma SplitOnce(s: string, sep: char)
    ensures var i := IndexOf(s, sep);
            if i == |s| then Split(s, sep) == [s]
            else Split(s, sep) == [s[..i]] + Split(s[i + 1..], sep) && s == s[..i] + [sep] + s[i + 1..]
  {
    hide IndexOf;
    var i := IndexOf(s, sep);
    if i < |s| { assert s == s[..i] + [s[i]] + s[i + 1..]; }
  }

  lemma {:induction false} SplitPieces(s: string, sep: char)
    ensures forall p :: p in Split(s, sep) ==> sep !in p && forall c :: c in p ==> c in s
    decreases |s|
  {
    var i := IndexOf(s, sep);
    SplitOnce(s, sep);
    if i < |s| {
      hide Split, IndexOf;
      var rest := Split(s[i + 1..], sep);
      SplitPieces(s[i + 1..], sep);
      forall p | p in Split(s, sep)
        ensures sep !in p && forall c :: c in p ==> c in s
      {
        assert p == s[..i] || p in rest;
      }
    }
  }

  /** Splitting undoes joining with the separator. */
  lemma SplitJoined(head: string, sep: char, rest: string)
    requires sep !in head
    ensures Split(head + [sep] + rest, sep) == [head] + Split(rest, sep)
  {
    var s := head + [sep] + rest;
    assert s[|head|] == sep;
    assert IndexOf(s, sep) == |head|;
    assert s[..|head|] == head && s[|head| + 1..] == rest;
  }

  lemma SplitWhole(s: string, sep: char)
    requires sep !in s
    ensures Split(s, sep) == [s]
  {
  }

  function StripAll(parts: seq<string>): (r: seq<string>)
    ensures |r| == |parts| && forall i :: 0 <= i < |parts| ==> r[i] == Strip(parts[i])
  {
    seq(|parts|, i requires 0 <= i < |parts| => Strip(parts[i]))
  }

  function NonEmpty(parts: seq<string>): (r: seq<string>)
    ensures forall p :: p in r <==> p in parts && p != ""
    ensures forall i :: 0 <= i < |r| ==> r[i] != ""
  {
    if parts == [] then [] else (if parts[0] == "" then [] else [parts[0]]) + NonEmpty(parts[1..])
  }

  // ---------------------------------------------------------------------------------------------
  // Integers
  // ---------------------------------------------------------------------------------------------

  function NatText(n: nat): (s: string)
    ensures s != [] && forall c :: c in s ==> IsDigit(c)
  {
    var d := [('0' as int + n % 10) as char];
    if n < 10 then d else NatText(n / 10) + d
  }

  /** Decimal digits, with single underscores between digits. */
  predicate IsNumeral(s: string)
  {
    && s != [] && IsDigit(s[0]) && IsDigit(Last(s))
    && (forall i :: 0 <= i < |s| ==> IsDigit(s[i]) || s[i] == '_')
    && (forall i :: 0 <= i < |s| - 1 ==> !(s[i] == '_' && s[i + 1] == '_'))
  }

  function NumeralValue(s: string): nat
    decreases |s|
  {
    if s == [] then 0
    else if IsDigit(Last(s)) then 10 * NumeralValue(Init(s)) + (Last(s) as int - '0' as int)
    else NumeralValue(Init(s))
  }

  /** Python's `int` on text: outer blanks, one sign, a numeral. */
  function ParseInt(text: string): Option<int>
  {
    var s := Strip(text);
    var signed := s != [] && (s[0] == '+' || s[0] == '-');
    var digits := if signed then s[1..] else s;
    if !IsNumeral(digits) then None
    else
      var magnitude: int := NumeralValue(digits);
      Some(if signed && s[0] == '-' then -magnitude else magnitude)
  }

  lemma {:induction false} NumeralOfNat(n: nat)
    ensures IsNumeral(NatText(n)) && NumeralValue(NatText(n)) == n
  {
    var d := [('0' as int + n % 10) as char];
    var s := NatText(n);
    assert s[0] in s && Last(s) in s;
    assert forall i :: 0 <= i < |s| ==> s[i] in s;
    if n >= 10 {
      NumeralOfNat(n / 10);
      assert Init(s) == NatText(n / 10) && Last(s) == d[0];
    } else {
      assert Init(s) == [];
    }
  }

  lemma DigitsAreNotBlank(s: string)
    requires s != [] && forall c :: c in s ==> IsDigit(c)
    ensures Trimmed(s) && s[0] != '+' && s[0] != '-'
  {
    assert s[0] in s && Last(s) in s;
  }

  lemma ParseIntOfNat(n: nat)
    ensures ParseInt(NatText(n)) == Some(n)
  {
    NumeralOfNat(n);
    DigitsAreNotBlank(NatText(n));
    StripFixes(NatText(n));
  }

  // ---------------------------------------------------------------------------------------------
  // The printer
  // ---------------------------------------------------------------------------------------------

  function BoxText(b: BoxId): string
  {
    "box_" + NatText(b)
  }

  function JoinAgents(agents: seq<AgentId>): string
    requires agents != []
  {
    if |agents| == 1 then agents[0] else agents[0] + "," + JoinAgents(agents[1..])
  }

  function SlotsText(c: GroundedSkillCall): string
  {
    (if c.box.Some? then "; " + BoxText(c.box.value) else "") + (if c.zone.Some? then "; " + c.zone.value else "")
  }

  function Render(c: GroundedSkillCall): string
  {
    SkillText(c.skill) + "(" + (JoinAgents(c.agents) + SlotsText(c)) + ")"
  }

  // ---------------------------------------------------------------------------------------------
  // The parser
  // ---------------------------------------------------------------------------------------------

  /** The two groups of the pattern: the skill's name, and what stands between the parentheses. */
  function Match(text: string): Option<(string, string)>
  {
    var t := Strip(text);
    var i := IndexOf(t, '(');
    if i >= |t| - 1 || Last(t) != ')' then None
    else
      var name, inner := RightStrip(t[..i]), t[i + 1..|t| - 1];
      if name == "" || !(forall k :: 0 <= k < |name| ==> IsNameChar(name[k])) || '(' in inner || ')' in inner then None
      else Some((name, Strip(inner)))
  }

  function SkillNamed(name: string): (r: Option<SkillName>)
    ensures r.Some? <==> exists skill :: SkillText(skill) == name
    ensures r.Some? ==> SkillText(r.value) == name
  {
    assert name == "GotoPushPose" ==> SkillText(GotoPushPose) == name;
    assert name == "Push" ==> SkillText(Push) == name;
    assert name == "CooperativePush" ==> SkillText(CooperativePush) == name;
    assert name == "Explore" ==> SkillText(Explore) == name;
    assert name == "Wait" ==> SkillText(Wait) == name;
    if name == "GotoPushPose" then Some(GotoPushPose)
    else if name == "Push" then Some(Push)
    else if name == "CooperativePush" then Some(CooperativePush)
    else if name == "Explore" then Some(Explore)
    else if name == "Wait" then Some(Wait)
    else None
  }

  predicate StartsWith(s: string, prefix: string)
  {
    prefix <= s
  }

  /** `None` where the identity's own parser raises. */
  function ParseBox(part: string): Option<BoxId>
  {
    if !StartsWith(part, "box_") then None
    else match ParseInt(part[4..])
      case None => None
      case Some(n) => if n < 0 then None else Some(n)
  }

  predicate IsBoxSlot(part: string)
  {
    StartsWith(part, "box")
  }

  predicate ValidSlot(part: string)
  {
    part != "" && (IsBoxSlot(part) ==> ParseBox(part).Some?)
  }

  predicate AllValid(parts: seq<string>)
  {
    forall i :: 0 <= i < |parts| ==> ValidSlot(parts[i])
  }

  /** The last slot that names a box, and the last one that does not. */
  function LastBox(parts: seq<string>): Option<BoxId>
    requires AllValid(parts)
    decreases |parts|
  {
    if parts == [] then None else if IsBoxSlot(Last(parts)) then ParseBox(Last(parts)) else LastBox(Init(parts))
  }

  function LastZone(parts: seq<string>): (zone: Option<ZoneId>)
    requires AllValid(parts)
    ensures zone.Some? ==> zone.value in parts && zone.value != "" && !IsBoxSlot(zone.value)
    decreases |parts|
  {
    assert parts != [] ==> ValidSlot(Last(parts));
    if parts == [] then None else if !IsBoxSlot(Last(parts)) then Some(Last(parts)) else LastZone(Init(parts))
  }

  function AgentsOf(parts: seq<string>): (agents: seq<AgentId>)
    ensures forall i :: 0 <= i < |agents| ==> agents[i] != ""
  {
    if parts == [] then [] else NonEmpty(StripAll(Split(parts[0], ',')))
  }

  function PartsOf(args: string): seq<string>
  {
    if args == "" then [] else StripAll(Split(args, ';'))
  }

  /** The call that the parts spell, or the rejection of the first thing that raises. */
  function Assemble(skill: SkillName, parts: seq<string>): ParseResult
  {
    var slots := if parts == [] then [] else parts[1..];
    if !AllValid(slots) then Malformed
    else
      match MakeCall(skill, AgentsOf(parts), LastBox(slots), LastZone(slots))
      case None => Malformed
      case Some(call) => Parsed(call)
  }

  function Parse(text: string): ParseResult
  {
    match Match(text)
    case None => Malformed
    case Some(groups) =>
      match SkillNamed(groups.0)
      case None => Malformed
      case Some(skill) => Assemble(skill, PartsOf(groups.1))
  }

  /** The source's loop over the slots, overwriting `box` and `zone`; it raises where this returns `false`. */
  method ReadSlots(slots: seq<string>) returns (ok: bool, box: Option<BoxId>, zone: Option<ZoneId>)
    ensures ok <==> AllValid(slots)
    ensures ok ==> box == LastBox(slots) && zone == LastZone(slots)
  {
    box, zone := None, None;
    for i := 0 to |slots|
      invariant forall k :: 0 <= k < i ==> ValidSlot(slots[k])
      invariant box == LastBox(slots[..i]) && zone == LastZone(slots[..i])
    {
      assert Init(slots[..i + 1]) == slots[..i];
      if slots[i] == "" {
        assert !ValidSlot(slots[i]);
        return false, box, zone;
      }
      if IsBoxSlot(slots[i]) {
        box := ParseBox(slots[i]);
        if box.None? {
          assert !ValidSlot(slots[i]);
          return false, box, zone;
        }
      } else {
        zone := Some(slots[i]);
      }
    }
    assert slots[..|slots|] == slots;
    ok := true;
  }

  method ParseSkillCall(text: string) returns (r: ParseResult)
    ensures r == Parse(text)
  {
    hide Match, SkillNamed, PartsOf, AgentsOf, MakeCall, AllValid, LastBox, LastZone;
    var groups := Match(text);
    if groups.None? {
      return Malformed;
    }
    var skill := SkillNamed(groups.value.0);
    if skill.None? {
      return Malformed;
    }
    var parts := PartsOf(groups.value.1);
    var agents := AgentsOf(parts);
    var ok, box, zone := ReadSlots(if parts == [] then [] else parts[1..]);
    if !ok {
      return Malformed;
    }
    var call := MakeCall(skill.value, agents, box, zone);
    return if call.None? then Malformed else Parsed(call.value);
  }

  // ---------------------------------------------------------------------------------------------
  // What the parser returns
  // ---------------------------------------------------------------------------------------------

  predicate Plain(s: string)
  {
    Trimmed(s) && '(' !in s && ')' !in s && ';' !in s
  }

  /** The identities the text form can carry: no delimiter inside, no outer blank, no zone that looks like a box. */
  predicate Clean(c: GroundedSkillCall)
  {
    && (forall i :: 0 <= i < |c.agents| ==> Plain(c.agents[i]) && ',' !in c.agents[i])
    && (c.zone.Some? ==> Plain(c.zone.value) && !IsBoxSlot(c.zone.value))
  }

  lemma PartsArePlain(args: string)
    requires '(' !in args && ')' !in args
    ensures forall i :: 0 <= i < |PartsOf(args)| ==> Plain(PartsOf(args)[i])
  {
    if args != "" {
      SplitPieces(args, ';');
      var pieces := Split(args, ';');
      forall i | 0 <= i < |pieces|
        ensures Plain(Strip(pieces[i]))
      {
        assert pieces[i] in pieces;
        StripTrims(pieces[i]);
      }
    }
  }

  lemma AgentsArePlain(parts: seq<string>)
    requires parts != [] && Plain(parts[0])
    ensures forall a :: a in AgentsOf(parts) ==> Plain(a) && ',' !in a
  {
    SplitPieces(parts[0], ',');
    var pieces := Split(parts[0], ',');
    forall a | a in AgentsOf(parts)
      ensures Plain(a) && ',' !in a
    {
      assert a in StripAll(pieces);
      var i :| 0 <= i < |pieces| && StripAll(pieces)[i] == a;
      assert pieces[i] in pieces;
      StripTrims(pieces[i]);
    }
  }

  lemma MatchHasNoParentheses(text: string)
    requires Match(text).Some?
    ensures '(' !in Match(text).value.1 && ')' !in Match(text).value.1
  {
    var t := Strip(text);
    StripTrims(t[IndexOf(t, '(') + 1..|t| - 1]);
  }

  /** Every call the parser returns has identities the text form can carry. */
  lemma ParseIsClean(text: string)
    requires Parse(text).Parsed?
    ensures Clean(Parse(text).call)
  {
    hide Match, PartsOf, Plain, LastBox, SkillNamed;
    var args := Match(text).value.1;
    MatchHasNoParentheses(text);
    var parts := PartsOf(args);
    PartsArePlain(args);
    var c := Parse(text).call;
    var agents := AgentsOf(parts);
    if parts != [] { AgentsArePlain(parts); }
    forall i | 0 <= i < |c.agents|
      ensures Plain(c.agents[i]) && ',' !in c.agents[i]
    {
      assert c.agents[i] in agents;
    }
    if c.zone.Some? {
      assert c.zone.value in parts[1..];
    }
  }

  /** A named skill is never turned into another: the result's name is the text up to the first parenthesis. */
  lemma SkillIsKept(text: string)
    requires Parse(text).Parsed?
    ensures var t := Strip(text); SkillText(Parse(text).call.skill) == RightStrip(t[..IndexOf(t, '(')])
  {
    hide PartsOf, AgentsOf, LastBox, LastZone;
  }

  // ---------------------------------------------------------------------------------------------
  // Printing and parsing undo each other
  // ---------------------------------------------------------------------------------------------

  /** The name of a skill is made of letters. */
  lemma SkillTextIsName(skill: SkillName)
    ensures SkillText(skill) != "" && forall k :: 0 <= k < |SkillText(skill)| ==> IsNameChar(SkillText(skill)[k])
    ensures SkillNamed(SkillText(skill)) == Some(skill)
  {
  }

  lemma NameCharsAreSafe(name: string)
    requires name != "" && forall k :: 0 <= k < |name| ==> IsNameChar(name[k])
    ensures Trimmed(name) && '(' !in name
  {
  }

  lemma MatchOfForm(name: string, inner: string)
    requires name != "" && forall k :: 0 <= k < |name| ==> IsNameChar(name[k])
    requires inner != "" && Trimmed(inner) && '(' !in inner && ')' !in inner
    ensures Match(name + "(" + inner + ")") == Some((name, inner))
  {
    var t := name + "(" + inner + ")";
    NameCharsAreSafe(name);
    assert t[0] == name[0] && Last(t) == ')';
    StripFixes(t);
    assert t[|name|] == '(';
    assert IndexOf(t, '(') == |name|;
    assert t[..|name|] == name && t[|name| + 1..|t| - 1] == inner;
    StripFixes(inner);
  }

  lemma {:induction false} JoinedAgents(agents: seq<AgentId>)
    requires agents != []
    requires forall i :: 0 <= i < |agents| ==> agents[i] != "" && Plain(agents[i]) && ',' !in agents[i]
    ensures JoinAgents(agents) != "" && Plain(JoinAgents(agents)) && Split(JoinAgents(agents), ',') == agents
  {
    if |agents| == 1 {
      SplitWhole(agents[0], ',');
    } else {
      JoinedAgents(agents[1..]);
      var rest := JoinAgents(agents[1..]);
      SplitJoined(agents[0], ',', rest);
      var whole := agents[0] + [','] + rest;
      assert JoinAgents(agents) == whole;
      assert whole[0] == agents[0][0] && Last(whole) == Last(rest);
    }
  }

  lemma {:induction false} NonEmptyKeeps(parts: seq<string>)
    requires forall i :: 0 <= i < |parts| ==> parts[i] != ""
    ensures NonEmpty(parts) == parts
  {
    if parts != [] { NonEmptyKeeps(parts[1..]); }
  }

  lemma AgentsOfJoined(agents: seq<AgentId>, rest: seq<string>)
    requires agents != []
    requires forall i :: 0 <= i < |agents| ==> agents[i] != "" && Plain(agents[i]) && ',' !in agents[i]
    ensures AgentsOf([JoinAgents(agents)] + rest) == agents
  {
    hide Split, JoinAgents, NonEmpty;
    JoinedAgents(agents);
    forall i | 0 <= i < |agents|
      ensures Strip(agents[i]) == agents[i]
    {
      StripFixes(agents[i]);
    }
    assert StripAll(agents) == agents;
    NonEmptyKeeps(agents);
  }

  lemma BoxTextIsPlain(b: BoxId)
    ensures BoxText(b) != "" && Plain(BoxText(b)) && IsBoxSlot(BoxText(b)) && ParseBox(BoxText(b)) == Some(b)
  {
    hide NatText, ParseInt, IsNumeral, NumeralValue;
    var digits := NatText(b);
    DigitsAreNotBlank(digits);
    ParseIntOfNat(b);
    assert BoxText(b)[4..] == digits;
    assert BoxText(b)[..4] == "box_" && BoxText(b)[..3] == "box";
    assert Last(BoxText(b)) == Last(digits);
  }

  lemma StripAfterBlank(s: string)
    requires s != "" && Trimmed(s)
    ensures Strip(" " + s) == s
  {
    assert (" " + s)[1..] == s;
    StripFixes(s);
  }

  /** The three printed parts come back apart. */
  lemma SplitThree(first: string, box: string, zone: string)
    requires ';' !in first && ';' !in box && ';' !in zone
    ensures Split(first + "; " + box + "; " + zone, ';') == [first, " " + box, " " + zone]
  {
    hide Split;
    var tail := " " + box + [';'] + (" " + zone);
    assert first + "; " + box + "; " + zone == first + [';'] + tail;
    SplitJoined(first, ';', tail);
    SplitJoined(" " + box, ';', " " + zone);
    SplitWhole(" " + zone, ';');
  }

  lemma PartsOfJoined(first: string, box: string, zone: string)
    requires first != "" && Plain(first) && box != "" && Plain(box) && zone != "" && Plain(zone)
    ensures PartsOf(first + "; " + box + "; " + zone) == [first, box, zone]
  {
    hide Split, Strip;
    SplitThree(first, box, zone);
    StripFixes(first);
    StripAfterBlank(box);
    StripAfterBlank(zone);
  }

  lemma PartsOfAlone(first: string)
    requires first != "" && Plain(first)
    ensures PartsOf(first) == [first]
  {
    SplitWhole(first, ';');
    StripFixes(first);
  }

  lemma InnerIsPlain(first: string, box: string, zone: string)
    requires first != "" && Plain(first) && box != "" && Plain(box) && zone != "" && Plain(zone)
    ensures var inner := first + "; " + box + "; " + zone;
            inner != "" && Trimmed(inner) && '(' !in inner && ')' !in inner
  {
    var inner := first + "; " + box + "; " + zone;
    assert inner[0] == first[0] && Last(inner) == Last(zone);
  }

  lemma AssembleSlots(c: GroundedSkillCall, first: string)
    requires Clean(c) && c.box.Some? && c.zone.Some?
             && AgentsOf([first, BoxText(c.box.value), c.zone.value]) == c.agents
    ensures Assemble(c.skill, [first, BoxText(c.box.value), c.zone.value]) == Parsed(c)
  {
    hide AgentsOf, BoxText, ParseBox;
    BoxTextIsPlain(c.box.value);
    var parts := [first, BoxText(c.box.value), c.zone.value];
    var slots := parts[1..];
    assert slots == [BoxText(c.box.value), c.zone.value] && Init(slots) == [BoxText(c.box.value)];
    assert ValidSlot(slots[0]) && ValidSlot(slots[1]);
    assert LastBox(Init(slots)) == c.box;
  }

  /** Printing and parsing a clean call gives the call back. */
  lemma RoundTrip(c: GroundedSkillCall)
    requires Clean(c)
    ensures Parse(Render(c)) == Parsed(c)
  {
    hide Match, PartsOf, AgentsOf, BoxText, Assemble, SkillText, SkillNamed, Trimmed, Split, JoinAgents;
    var name, first := SkillText(c.skill), JoinAgents(c.agents);
    SkillTextIsName(c.skill);
    JoinedAgents(c.agents);
    if c.box.Some? {
      var box, zone := BoxText(c.box.value), c.zone.value;
      BoxTextIsPlain(c.box.value);
      InnerIsPlain(first, box, zone);
      assert first + SlotsText(c) == first + "; " + box + "; " + zone;
      MatchOfForm(name, first + "; " + box + "; " + zone);
      PartsOfJoined(first, box, zone);
      AgentsOfJoined(c.agents, [box, zone]);
      assert [first] + [box, zone] == [first, box, zone];
      AssembleSlots(c, first);
    } else {
      assert first + SlotsText(c) == first;
      MatchOfForm(name, first);
      PartsOfAlone(first);
      AgentsOfJoined(c.agents, []);
      assert [first] + [] == [first];
      assert Assemble(c.skill, [first]) == Parsed(c) by { AssembleAlone(c, first); }
    }
  }

  lemma AssembleAlone(c: GroundedSkillCall, first: string)
    requires c.box.None? && AgentsOf([first]) == c.agents
    ensures Assemble(c.skill, [first]) == Parsed(c)
  {
    hide AgentsOf;
  }

  /** Exactly the clean calls survive the round trip. */
  lemma RoundTripIff(c: GroundedSkillCall)
    ensures Parse(Render(c)) == Parsed(c) <==> Clean(c)
  {
    hide Parse, Render, Clean;
    if Clean(c) { RoundTrip(c); }
    if Parse(Render(c)) == Parsed(c) { ParseIsClean(Render(c)); }
  }

  /** Whatever text was parsed, the call it gave is a fixed point of printing and parsing. */
  lemma ParseIsNormal(text: string)
    requires Parse(text).Parsed?
    ensures Parse(Render(Parse(text).call)) == Parse(text)
  {
    hide Render, Clean;
    ParseIsClean(text);
    RoundTrip(Parse(text).call);
  }

  // ---------------------------------------------------------------------------------------------
  // Which accepted texts are printed ones
  // ---------------------------------------------------------------------------------------------

  /** Digits only, and no leading zero. */
  predicate PlainNumeral(s: string)
  {
    s != "" && (forall i :: 0 <= i < |s| ==> IsDigit(s[i])) && (|s| > 1 ==> s[0] != '0')
  }

  /** No spare blanks and no empty piece among the agents, and a pair in order. */
  predicate PrintedAgents(s: string)
  {
    var pieces := Split(s, ',');
    && (forall i :: 0 <= i < |pieces| ==> pieces[i] != "" && Trimmed(pieces[i]))
    && (|pieces| == 2 ==> StringLess(pieces[0], pieces[1]))
  }

  /** No slots, or the box slot before the zone slot, each after one blank, the box in plain digits. */
  predicate PrintedSlots(parts: seq<string>)
  {
    || |parts| == 1
    || (|parts| == 3 && StartsWith(parts[1], " box_") && PlainNumeral(parts[1][5..])
        && StartsWith(parts[2], " ") && parts[2][1..] != "" && Trimmed(parts[2][1..]) && !IsBoxSlot(parts[2][1..]))
  }

  /** The surface form of the printer: no blank around name or parentheses, agents and slots as printed. */
  predicate Printed(text: string)
  {
    && Match(text).Some?
    && var (name, args) := Match(text).value;
       && text == name + "(" + args + ")"
       && var parts := Split(args, ';'); PrintedAgents(parts[0]) && PrintedSlots(parts)
  }

  /** The parser accepts more than the printed form: one leading blank, for a start. */
  lemma SpareBlankIsAccepted(c: GroundedSkillCall)
    requires Clean(c)
    ensures Parse(" " + Render(c)) == Parsed(c) && " " + Render(c) != Render(c)
  {
    hide Match, Render, Parse;
    RoundTrip(c);
    RenderIsTrimmed(c);
    BlankIsStripped(Render(c));
    assert |" " + Render(c)| == |Render(c)| + 1;
  }

  lemma RenderIsTrimmed(c: GroundedSkillCall)
    ensures Render(c) != "" && Trimmed(Render(c))
  {
    hide JoinAgents, SlotsText;
    var name := SkillText(c.skill);
    SkillTextIsName(c.skill);
    NameCharsAreSafe(name);
    assert Render(c)[0] == name[0] && Last(Render(c)) == ')';
  }

  lemma BlankIsStripped(text: string)
    requires text != "" && Trimmed(text)
    ensures Parse(" " + text) == Parse(text)
  {
    hide Strip, SkillNamed, Assemble, IndexOf, RightStrip, PartsOf;
    StripAfterBlank(text);
    StripFixes(text);
  }

  lemma {:induction false} NatTextIsPlain(n: nat)
    ensures PlainNumeral(NatText(n)) && (n > 0 ==> NatText(n)[0] != '0')
  {
    var s := NatText(n);
    assert forall i :: 0 <= i < |s| ==> s[i] in s;
    if n >= 10 {
      NatTextIsPlain(n / 10);
      assert s[0] == NatText(n / 10)[0];
    }
  }

  lemma {:induction false} LeadingDigitCounts(s: string)
    requires s != "" && (forall i :: 0 <= i < |s| ==> IsDigit(s[i])) && s[0] != '0'
    ensures NumeralValue(s) > 0
    decreases |s|
  {
    if |s| > 1 {
      LeadingDigitCounts(Init(s));
    } else {
      assert Init(s) == [];
    }
  }

  lemma {:induction false} NatTextOfNumeral(s: string)
    requires PlainNumeral(s)
    ensures NatText(NumeralValue(s)) == s
    decreases |s|
  {
    var v, d := NumeralValue(s), Last(s) as int - '0' as int;
    assert s == Init(s) + [Last(s)];
    assert IsDigit(Last(s));
    if |s| == 1 {
      assert Init(s) == [];
    } else {
      LeadingDigitCounts(Init(s));
      NatTextOfNumeral(Init(s));
      assert v == 10 * NumeralValue(Init(s)) + d && v / 10 == NumeralValue(Init(s)) && v % 10 == d;
    }
  }

  lemma {:induction false} JoinOfSplit(s: string)
    ensures JoinAgents(Split(s, ',')) == s
    decreases |s|
  {
    var i := IndexOf(s, ',');
    if i < |s| {
      JoinOfSplit(s[i + 1..]);
      assert Split(s, ',') == [s[..i]] + Split(s[i + 1..], ',');
      assert s == s[..i] + "," + s[i + 1..];
    }
  }

  lemma JoinOfSlots(s: string, parts: seq<string>)
    requires parts == Split(s, ';') && |parts| in {1, 3}
    ensures s == if |parts| == 1 then parts[0] else parts[0] + ";" + parts[1] + ";" + parts[2]
  {
    hide Split, IndexOf;
    SplitOnce(s, ';');
    if |parts| == 3 {
      var rest := s[IndexOf(s, ';') + 1..];
      SplitOnce(rest, ';');
      SplitOnce(rest[IndexOf(rest, ';') + 1..], ';');
    }
  }

  /** What the printer writes is in its own surface form. */
  lemma RenderIsPrinted(c: GroundedSkillCall)
    requires Clean(c)
    ensures Printed(Render(c))
  {
    if c.box.Some? { RenderWithSlots(c); } else { RenderWithoutSlots(c); }
  }

  lemma RenderWithSlots(c: GroundedSkillCall)
    requires Clean(c) && c.box.Some?
    ensures Printed(Render(c))
  {
    hide Match, Split, BoxText, JoinAgents, SkillText, SkillNamed, PlainNumeral, PrintedAgents, PrintedSlots,
      Trimmed, IsBoxSlot;
    var name, first := SkillText(c.skill), JoinAgents(c.agents);
    var box, zone := BoxText(c.box.value), c.zone.value;
    SkillTextIsName(c.skill);
    JoinedAgents(c.agents);
    BoxTextIsPlain(c.box.value);
    BoxSlotIsPrinted(c.box.value);
    InnerIsPlain(first, box, zone);
    assert first + SlotsText(c) == first + "; " + box + "; " + zone;
    MatchOfForm(name, first + "; " + box + "; " + zone);
    SplitThree(first, box, zone);
    CleanAgentsArePrinted(c);
    CleanSlotsArePrinted(first, c.box.value, zone);
  }

  lemma CleanAgentsArePrinted(c: GroundedSkillCall)
    requires Clean(c)
    ensures PrintedAgents(JoinAgents(c.agents))
  {
    hide Split, JoinAgents;
    JoinedAgents(c.agents);
  }

  lemma CleanSlotsArePrinted(first: string, b: BoxId, zone: string)
    requires zone != "" && Plain(zone) && !IsBoxSlot(zone)
    ensures PrintedSlots([first, " " + BoxText(b), " " + zone])
  {
    hide BoxText, PlainNumeral;
    BoxSlotIsPrinted(b);
    assert (" " + zone)[1..] == zone;
  }

  lemma RenderWithoutSlots(c: GroundedSkillCall)
    requires Clean(c) && c.box.None?
    ensures Printed(Render(c))
  {
    hide Match, Split, BoxText, JoinAgents, SkillText, SkillNamed;
    var name, first := SkillText(c.skill), JoinAgents(c.agents);
    SkillTextIsName(c.skill);
    JoinedAgents(c.agents);
    assert first + SlotsText(c) == first;
    MatchOfForm(name, first);
    SplitWhole(first, ';');
  }

  lemma BoxSlotIsPrinted(b: BoxId)
    ensures StartsWith(" " + BoxText(b), " box_") && PlainNumeral((" " + BoxText(b))[5..])
  {
    hide NatText, PlainNumeral;
    NatTextIsPlain(b);
    assert (" " + BoxText(b))[5..] == NatText(b);
  }

  /** Agents in surface form are read as they stand. */
  lemma PrintedAgentsAreRead(s: string)
    requires PrintedAgents(s)
    ensures Strip(s) == s && AgentsOf([s]) == Split(s, ',') && s != ""
  {
    var pieces := Split(s, ',');
    hide Split, JoinAgents;
    JoinOfSplit(s);
    EndsOfJoined(pieces);
    StripFixes(s);
    forall i | 0 <= i < |pieces|
      ensures Strip(pieces[i]) == pieces[i]
    {
      StripFixes(pieces[i]);
    }
    assert StripAll(pieces) == pieces;
    NonEmptyKeeps(pieces);
  }

  lemma {:induction false} EndsOfJoined(pieces: seq<string>)
    requires pieces != [] && forall i :: 0 <= i < |pieces| ==> pieces[i] != "" && Trimmed(pieces[i])
    ensures JoinAgents(pieces) != "" && Trimmed(JoinAgents(pieces))
  {
    if |pieces| > 1 {
      EndsOfJoined(pieces[1..]);
      var rest := JoinAgents(pieces[1..]);
      assert JoinAgents(pieces)[0] == pieces[0][0] && Last(JoinAgents(pieces)) == Last(rest);
    }
  }

  lemma PrintedBoxIsRead(part: string)
    requires StartsWith(part, " box_") && PlainNumeral(part[5..])
    ensures Strip(part) == part[1..] && IsBoxSlot(part[1..]) && ParseBox(part[1..]).Some?
    ensures part[1..] == BoxText(ParseBox(part[1..]).value)
  {
    hide Strip, ParseInt, NatText, NumeralValue, PlainNumeral;
    var digits := part[5..];
    var box := part[1..];
    assert part[..5] == " box_";
    assert part == " " + box && box == "box_" + digits && box[4..] == digits;
    assert box[..4] == "box_" && box[..3] == "box";
    PlainNumeralIsRead(digits);
    assert Last(box) == Last(digits);
    StripAfterBlank(box);
    NatTextOfNumeral(digits);
  }

  lemma PlainNumeralIsRead(digits: string)
    requires PlainNumeral(digits)
    ensures ParseInt(digits) == Some(NumeralValue(digits)) && digits != "" && Trimmed(digits)
  {
    hide NumeralValue, Strip;
    DigitsAreNotBlank(digits);
    StripFixes(digits);
  }

  lemma PrintedPartsAreRead(args: string, parts: seq<string>)
    requires parts == Split(args, ';') && PrintedAgents(parts[0]) && PrintedSlots(parts)
    ensures PartsOf(args) == if |parts| == 1 then [parts[0]] else [parts[0], parts[1][1..], parts[2][1..]]
    ensures parts[0] != "" && AgentsOf(PartsOf(args)) == Split(parts[0], ',')
  {
    hide Split, Strip, ParseBox, BoxText, PlainNumeral, NonEmpty;
    JoinOfSlots(args, parts);
    PrintedAgentsAreRead(parts[0]);
    if |parts| == 3 {
      PrintedBoxIsRead(parts[1]);
      assert parts[2] == " " + parts[2][1..];
      StripAfterBlank(parts[2][1..]);
    }
  }

  /** Agents already in order are kept as they are. */
  lemma AssembleInOrder(skill: SkillName, parts: seq<string>)
    requires Assemble(skill, parts).Parsed?
             && (|AgentsOf(parts)| == 2 ==> StringLess(AgentsOf(parts)[0], AgentsOf(parts)[1]))
    ensures var slots := if parts == [] then [] else parts[1..];
            && AllValid(slots)
            && Assemble(skill, parts).call == Call(skill, AgentsOf(parts), LastBox(slots), LastZone(slots))
  {
    hide AgentsOf, LastBox, LastZone, AllValid;
  }

  lemma TwoSlots(box: string, zone: string)
    requires AllValid([box, zone]) && IsBoxSlot(box) && !IsBoxSlot(zone)
    ensures LastBox([box, zone]) == ParseBox(box) && LastZone([box, zone]) == Some(zone)
  {
    hide ParseBox;
    assert Init([box, zone]) == [box];
  }

  /** The call that parts in surface form spell is written back as the text between the parentheses. */
  lemma PrintedPartsAreWritten(skill: SkillName, args: string, parts: seq<string>)
    requires parts == Split(args, ';') && PrintedAgents(parts[0]) && PrintedSlots(parts)
    requires Assemble(skill, PartsOf(args)).Parsed?
    ensures var c := Assemble(skill, PartsOf(args)).call;
            c.skill == skill && JoinAgents(c.agents) + SlotsText(c) == args
  {
    hide Split, AgentsOf, BoxText, ParseBox, JoinAgents, PlainNumeral, Trimmed, LastBox, LastZone, PartsOf,
      Assemble, AllValid;
    JoinOfSlots(args, parts);
    JoinOfSplit(parts[0]);
    PrintedPartsAreRead(args, parts);
    AssembleInOrder(skill, PartsOf(args));
    if |parts| == 3 {
      PrintedBoxIsRead(parts[1]);
      assert PartsOf(args)[1..] == [parts[1][1..], parts[2][1..]];
      TwoSlots(parts[1][1..], parts[2][1..]);
      SlotsAreWritten(parts[0], parts[1], parts[2]);
    } else {
      assert PartsOf(args)[1..] == [];
      NoSlots();
      assert args + "" == args;
    }
  }

  lemma SlotsAreWritten(first: string, box: string, zone: string)
    requires StartsWith(box, " ") && StartsWith(zone, " ")
    ensures first + ("; " + box[1..] + ("; " + zone[1..])) == first + ";" + box + ";" + zone
  {
    assert box == " " + box[1..] && zone == " " + zone[1..];
  }

  /** A text in surface form that parses is what the printer writes of its call. */
  lemma PrintedIsRendered(text: string)
    requires Parse(text).Parsed? && Printed(text)
    ensures text == Render(Parse(text).call)
  {
    hide Match, Split, PartsOf, Assemble, PrintedAgents, PrintedSlots, JoinAgents, SlotsText, SkillText;
    var (name, args) := Match(text).value;
    PrintedPartsAreWritten(SkillNamed(name).value, args, Split(args, ';'));
  }

  lemma NoSlots()
    ensures AllValid([]) && LastBox([]) == None && LastZone([]) == None
  {
  }

  /** Exactly the texts in the printer's surface form are the printed ones among all that the parser accepts. */
  lemma AcceptedIsPrintedIff(text: string)
    requires Parse(text).Parsed?
    ensures text == Render(Parse(text).call) <==> Printed(text)
  {
    hide Parse, Printed, Render, Clean;
    ParseIsClean(text);
    RenderIsPrinted(Parse(text).call);
    if Printed(text) { PrintedIsRendered(text); }
  }
}
