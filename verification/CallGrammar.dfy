/**
  The language of `parse_skill_call` (nl/parser.py, shared/ids.py), as a grammar: which texts the parser
  accepts, and what each of them spells. `CallText` follows the source's steps - strip, match, split,
  convert; the relations here say how an accepted text is put together.
*/
module CallGrammar {
  import opened Common
  import opened Skills
  import opened CallText

  predicate Blank(s: string)
  {
    forall i :: 0 <= i < |s| ==> IsSpace(s[i])
  }

  // ---------------------------------------------------------------------------------------------
  // Blanks around a text
  // ---------------------------------------------------------------------------------------------

  ghost predicate Padded(s: string, before: string, t: string, after: string)
  {
    Blank(before) && Blank(after) && s == before + t + after
  }

  lemma {:induction false} LeftOfBlank(before: string, t: string)
    requires Blank(before) && (t != "" ==> !IsSpace(t[0]))
    ensures LeftStrip(before + t) == t
  {
    if before == "" {
      assert before + t == t;
    } else {
      assert (before + t)[0] == before[0] && (before + t)[1..] == before[1..] + t;
      LeftOfBlank(before[1..], t);
    }
  }

  lemma {:induction false} RightOfBlank(t: string, after: string)
    requires Blank(after) && (t != "" ==> !IsSpace(Last(t)))
    ensures RightStrip(t + after) == t
    decreases |after|
  {
    if after == "" {
      assert t + after == t;
    } else {
      assert Last(t + after) == Last(after) && Init(t + after) == t + Init(after);
      RightOfBlank(t, Init(after));
    }
  }

  lemma {:induction false} LeftPadding(s: string) returns (before: string)
    ensures Blank(before) && s == before + LeftStrip(s)
  {
    if s != "" && IsSpace(s[0]) {
      var rest := LeftPadding(s[1..]);
      before := [s[0]] + rest;
    } else {
      before := "";
    }
  }

  lemma {:induction false} RightPadding(s: string) returns (after: string)
    ensures Blank(after) && s == RightStrip(s) + after
    decreases |s|
  {
    if s != "" && IsSpace(Last(s)) {
      var rest := RightPadding(Init(s));
      after := rest + [Last(s)];
      assert s == Init(s) + [Last(s)];
    } else {
      after := "";
    }
  }

  /** Stripping takes off all the blanks at both ends, and nothing else. */
  lemma StripIff(s: string, t: string)
    ensures Strip(s) == t <==> Trimmed(t) && exists before, after :: Padded(s, before, t, after)
  {
    if Strip(s) == t {
      StripTrims(s);
      var before := LeftPadding(s);
      var after := RightPadding(LeftStrip(s));
      assert Padded(s, before, t, after);
    }
    if Trimmed(t) && exists before, after :: Padded(s, before, t, after) {
      var before, after :| Padded(s, before, t, after);
      StripPadded(before, t, after);
    }
  }

  lemma StripPadded(before: string, t: string, after: string)
    requires Trimmed(t) && Blank(before) && Blank(after)
    ensures Strip(before + t + after) == t
  {
    if t == "" {
      assert before + t + after == before + after + "";
      LeftOfBlank(before + after, "");
    } else {
      assert before + t + after == before + (t + after);
      assert (t + after)[0] == t[0];
      LeftOfBlank(before, t + after);
      RightOfBlank(t, after);
    }
  }

  // ---------------------------------------------------------------------------------------------
  // The outer form
  // ---------------------------------------------------------------------------------------------

  /** A name and an argument text between parentheses, with blanks wherever the pattern allows them. */
  ghost predicate Writes(text: string, name: string, args: string, b1: string, b2: string, b3: string, b4: string,
    b5: string)
  {
    && Blank(b1) && Blank(b2) && Blank(b3) && Blank(b4) && Blank(b5)
    && text == b1 + (name + b2 + "(" + (b3 + args + b4) + ")") + b5
  }

  ghost predicate IsForm(name: string, args: string)
  {
    && name != "" && (forall i :: 0 <= i < |name| ==> IsNameChar(name[i]))
    && Trimmed(args) && '(' !in args && ')' !in args
  }

  lemma NameIsNotBlank(c: char)
    ensures IsNameChar(c) ==> !IsSpace(c) && c != '(' && c != ')'
    ensures IsSpace(c) ==> c != '(' && c != ')'
  {
  }

  lemma InnerHasNoParentheses(b3: string, args: string, b4: string)
    requires Blank(b3) && Blank(b4) && '(' !in args && ')' !in args
    ensures '(' !in b3 + args + b4 && ')' !in b3 + args + b4
  {
  }

  lemma WrittenIsMatched(text: string, name: string, args: string, b1: string, b2: string, b3: string, b4: string,
    b5: string)
    requires IsForm(name, args) && Writes(text, name, args, b1, b2, b3, b4, b5)
    ensures Match(text) == Some((name, args))
  {
    var inner := b3 + args + b4;
    var t := name + b2 + "(" + inner + ")";
    NameIsNotBlank(name[0]);
    assert t[0] == name[0] && Last(t) == ')';
    StripPadded(b1, t, b5);
    var i := |name + b2|;
    assert t[..i] == name + b2 && t[i] == '(' && t[i + 1..|t| - 1] == inner;
    assert IndexOf(t, '(') == i by { OpensAt(t, i, name, b2); }
    NameIsNotBlank(Last(name));
    RightOfBlank(name, b2);
    InnerHasNoParentheses(b3, args, b4);
    StripPadded(b3, args, b4);
  }

  lemma OpensAt(t: string, i: nat, name: string, b2: string)
    requires i < |t| && t[i] == '(' && t[..i] == name + b2 && Blank(b2)
    requires forall k :: 0 <= k < |name| ==> IsNameChar(name[k])
    ensures IndexOf(t, '(') == i
  {
    forall k | 0 <= k < i
      ensures t[k] != '('
    {
      assert t[k] == (name + b2)[k];
      NameIsNotBlank(t[k]);
    }
  }

  lemma MatchedIsWritten(text: string) returns (b1: string, b2: string, b3: string, b4: string, b5: string)
    requires Match(text).Some?
    ensures IsForm(Match(text).value.0, Match(text).value.1)
    ensures Writes(text, Match(text).value.0, Match(text).value.1, b1, b2, b3, b4, b5)
  {
    hide IndexOf, IsForm, LeftStrip, RightStrip, IsSpace, IsNameChar;
    var t := Strip(text);
    StripIff(text, t);
    b1, b5 :| Padded(text, b1, t, b5);
    var i := IndexOf(t, '(');
    assert t == t[..i] + "(" + t[i + 1..|t| - 1] + ")";
    b2 := RightPadding(t[..i]);
    b3, b4 := InnerIsPadded(t[i + 1..|t| - 1]);
    GroupsFit(text, t, i);
  }

  lemma InnerIsPadded(inner: string) returns (b3: string, b4: string)
    ensures Blank(b3) && Blank(b4) && inner == b3 + Strip(inner) + b4
  {
    StripIff(inner, Strip(inner));
    b3, b4 :| Padded(inner, b3, Strip(inner), b4);
  }

  lemma GroupsFit(text: string, t: string, i: nat)
    requires Match(text).Some? && t == Strip(text) && i == IndexOf(t, '(')
    ensures i < |t| - 1 && Match(text).value == (RightStrip(t[..i]), Strip(t[i + 1..|t| - 1]))
    ensures IsForm(Match(text).value.0, Match(text).value.1)
  {
    hide LeftStrip, RightStrip, Strip, IsSpace, IsNameChar;
    StripTrims(t[i + 1..|t| - 1]);
  }

  /** The texts with an outer form, and their two groups: exactly those written so. */
  lemma MatchIff(text: string, name: string, args: string)
    ensures Match(text) == Some((name, args)) <==>
            IsForm(name, args) && exists b1, b2, b3, b4, b5 :: Writes(text, name, args, b1, b2, b3, b4, b5)
  {
    hide Match, Writes, IsForm;
    if Match(text) == Some((name, args)) {
      var b1, b2, b3, b4, b5 := MatchedIsWritten(text);
    }
    if IsForm(name, args) && exists b1, b2, b3, b4, b5 :: Writes(text, name, args, b1, b2, b3, b4, b5) {
      var b1, b2, b3, b4, b5 :| Writes(text, name, args, b1, b2, b3, b4, b5);
      WrittenIsMatched(text, name, args, b1, b2, b3, b4, b5);
    }
  }

  // ---------------------------------------------------------------------------------------------
  // Separators
  // ---------------------------------------------------------------------------------------------

  function Joined(pieces: seq<string>, sep: char): string
    requires pieces != []
  {
    if |pieces| == 1 then pieces[0] else pieces[0] + [sep] + Joined(pieces[1..], sep)
  }

  /** Splitting gives the pieces that join to the text and hold no separator; there is only one such sequence. */
  lemma {:induction false} SplitIff(s: string, sep: char, pieces: seq<string>)
    ensures Split(s, sep) == pieces <==>
            pieces != [] && Joined(pieces, sep) == s && forall p :: p in pieces ==> sep !in p
    decreases |s|
  {
    SplitPieces(s, sep);
    if Split(s, sep) == pieces { JoinedSplit(s, sep); }
    if pieces != [] && Joined(pieces, sep) == s && forall p :: p in pieces ==> sep !in p {
      SplitOfJoined(pieces, sep);
    }
  }

  lemma {:induction false} JoinedSplit(s: string, sep: char)
    ensures Joined(Split(s, sep), sep) == s
    decreases |s|
  {
    var i := IndexOf(s, sep);
    SplitOnce(s, sep);
    if i < |s| {
      JoinedSplit(s[i + 1..], sep);
      assert Split(s, sep)[1..] == Split(s[i + 1..], sep);
    }
  }

  lemma {:induction false} SplitOfJoined(pieces: seq<string>, sep: char)
    requires pieces != [] && forall p :: p in pieces ==> sep !in p
    ensures Split(Joined(pieces, sep), sep) == pieces
  {
    hide Split, IndexOf;
    assert pieces[0] in pieces;
    if |pieces| == 1 {
      SplitWhole(pieces[0], sep);
    } else {
      SplitOfJoined(pieces[1..], sep);
      SplitJoined(pieces[0], sep, Joined(pieces[1..], sep));
      assert pieces == [pieces[0]] + pieces[1..];
    }
  }

  // ---------------------------------------------------------------------------------------------
  // Integers
  // ---------------------------------------------------------------------------------------------

  /** Some digits, and nothing else. */
  predicate IsDigits(s: string)
  {
    s != "" && forall i :: 0 <= i < |s| ==> '0' <= s[i] <= '9'
  }

  /** A numeral is groups of digits with one underscore between each two. */
  lemma {:induction false} NumeralIff(s: string)
    ensures IsNumeral(s) <==> forall p :: p in Split(s, '_') ==> IsDigits(p)
    decreases |s|
  {
    hide Split, IndexOf, IsNumeral, IsDigits;
    var i := IndexOf(s, '_');
    SplitOnce(s, '_');
    if i < |s| {
      var head, rest := s[..i], s[i + 1..];
      NumeralIff(rest);
      NumeralCons(head, rest);
      assert s == head + "_" + rest;
      assert forall p :: p in Split(s, '_') <==> p == head || p in Split(rest, '_');
    } else {
      OneGroup(s);
      assert forall p :: p in Split(s, '_') <==> p == s;
    }
  }

  lemma OneGroup(s: string)
    requires '_' !in s
    ensures IsNumeral(s) <==> IsDigits(s)
  {
    assert forall k :: 0 <= k < |s| ==> s[k] in s;
  }

  lemma NumeralCons(head: string, rest: string)
    requires '_' !in head
    ensures IsNumeral(head + "_" + rest) <==> IsDigits(head) && IsNumeral(rest)
  {
    var s := head + "_" + rest;
    var n := |head|;
    assert s[n] == '_' && s[..n] == head && s[n + 1..] == rest;
    if IsNumeral(s) {
      NumeralHead(head, rest);
    }
    if IsDigits(head) && IsNumeral(rest) {
      assert Last(s) == Last(rest) && s[0] == head[0];
      forall i | 0 <= i < |s|
        ensures IsDigit(s[i]) || s[i] == '_'
        ensures i < |s| - 1 ==> !(s[i] == '_' && s[i + 1] == '_')
      {
        if i < n { assert s[i] == head[i]; }
        if i > n { assert s[i] == rest[i - n - 1]; }
        if n <= i < |s| - 1 { assert s[i + 1] == rest[i - n]; }
      }
    }
  }

  lemma NumeralHead(head: string, rest: string)
    requires '_' !in head && IsNumeral(head + "_" + rest)
    ensures IsDigits(head) && IsNumeral(rest)
  {
    var s := head + "_" + rest;
    var n := |head|;
    assert s[n] == '_';
    assert head != "" && rest != "";
    assert s[n + 1] == rest[0] && Last(s) == Last(rest);
    forall i | 0 <= i < n
      ensures IsDigit(head[i])
    {
      assert s[i] == head[i];
    }
    forall i | 0 <= i < |rest|
      ensures IsDigit(rest[i]) || rest[i] == '_'
      ensures i < |rest| - 1 ==> !(rest[i] == '_' && rest[i + 1] == '_')
    {
      assert s[n + 1 + i] == rest[i];
      if i < |rest| - 1 { assert s[n + 2 + i] == rest[i + 1]; }
    }
  }

  /** Blanks, at most one sign, and a numeral. */
  ghost predicate WritesInt(text: string, before: string, sign: string, digits: string, after: string)
  {
    Blank(before) && Blank(after) && sign in {"", "+", "-"} && IsNumeral(digits)
    && text == before + (sign + digits) + after
  }

  function Signed(sign: string, digits: string): int
  {
    var magnitude: int := NumeralValue(digits);
    if sign == "-" then -magnitude else magnitude
  }

  /** Exactly the texts so written are integers, and the sign decides between the value and its negation. */
  lemma ParseIntIff(text: string, n: int)
    ensures ParseInt(text) == Some(n) <==>
            exists before, sign, digits, after ::
              WritesInt(text, before, sign, digits, after)
              && n == Signed(sign, digits)
  {
    hide NumeralValue;
    if ParseInt(text) == Some(n) {
      var before, sign, digits, after := IntIsWritten(text);
      assert WritesInt(text, before, sign, digits, after)
        && n == Signed(sign, digits);
    }
    if exists before, sign, digits, after :: WritesInt(text, before, sign, digits, after)
         && n == Signed(sign, digits) {
      var before, sign, digits, after :| WritesInt(text, before, sign, digits, after)
        && n == Signed(sign, digits);
      WrittenIsInt(text, before, sign, digits, after);
    }
  }

  lemma IntIsWritten(text: string) returns (before: string, sign: string, digits: string, after: string)
    requires ParseInt(text).Some?
    ensures WritesInt(text, before, sign, digits, after)
    ensures ParseInt(text).value == Signed(sign, digits)
  {
    hide NumeralValue;
    var s := Strip(text);
    StripIff(text, s);
    before, after :| Padded(text, before, s, after);
    var signed := s[0] == '+' || s[0] == '-';
    sign, digits := if signed then [s[0]] else "", if signed then s[1..] else s;
    assert s == sign + digits;
  }

  lemma WrittenIsInt(text: string, before: string, sign: string, digits: string, after: string)
    requires WritesInt(text, before, sign, digits, after)
    ensures ParseInt(text) == Some(Signed(sign, digits))
  {
    hide NumeralValue;
    var s := sign + digits;
    DigitIsPlain(digits[0]);
    DigitIsPlain(Last(digits));
    assert Last(s) == Last(digits) && s[|sign|..] == digits;
    assert s[0] == if sign == "" then digits[0] else sign[0];
    StripPadded(before, s, after);
  }

  lemma DigitIsPlain(c: char)
    requires IsDigit(c)
    ensures !IsSpace(c) && c != '+' && c != '-'
  {
  }

  function WithoutUnderscores(s: string): string
    decreases |s|
  {
    if s == "" then "" else WithoutUnderscores(Init(s)) + if Last(s) == '_' then "" else [Last(s)]
  }

  function Zeros(n: nat): string
  {
    seq(n, i requires 0 <= i < n => '0')
  }

  /** The value of a numeral is that of its digits: underscores and leading zeros do not count. */
  lemma {:induction false} NumeralOfDigits(s: string, zeros: nat, n: nat)
    requires WithoutUnderscores(s) == Zeros(zeros) + NatText(n)
    ensures NumeralValue(s) == n
  {
    UnderscoresDoNotCount(s);
    ZerosDoNotCount(zeros, NatText(n));
    NumeralOfNat(n);
  }

  lemma {:induction false} UnderscoresDoNotCount(s: string)
    ensures NumeralValue(WithoutUnderscores(s)) == NumeralValue(s)
    decreases |s|
  {
    if s != "" {
      UnderscoresDoNotCount(Init(s));
      var kept := WithoutUnderscores(Init(s));
      if Last(s) == '_' {
        assert kept + "" == kept;
      } else {
        assert Init(kept + [Last(s)]) == kept && Last(kept + [Last(s)]) == Last(s);
      }
    }
  }

  lemma {:induction false} ZerosDoNotCount(n: nat, s: string)
    ensures NumeralValue(Zeros(n) + s) == NumeralValue(s)
    decreases n + |s|
  {
    var whole := Zeros(n) + s;
    if s != "" {
      assert Init(whole) == Zeros(n) + Init(s) && Last(whole) == Last(s);
      ZerosDoNotCount(n, Init(s));
    } else if n > 0 {
      assert Init(whole) == Zeros(n - 1) + "" && Last(whole) == '0';
      ZerosDoNotCount(n - 1, "");
    } else {
      assert whole == s;
    }
  }

  /** A box slot is `box_` and an integer that is not negative; every other slot after `box` is rejected. */
  lemma BoxIff(part: string, n: BoxId)
    ensures ParseBox(part) == Some(n) <==> |part| >= 4 && part[..4] == "box_" && ParseInt(part[4..]) == Some(n)
  {
  }

  // ---------------------------------------------------------------------------------------------
  // Slots
  // ---------------------------------------------------------------------------------------------

  /** The last slot that names a box, or the length if none does. */
  ghost function LatestBox(slots: seq<string>): (i: nat)
    ensures i <= |slots| && (i < |slots| ==> IsBoxSlot(slots[i]))
            && forall m :: i < m < |slots| ==> !IsBoxSlot(slots[m])
    ensures i == |slots| ==> forall m :: 0 <= m < |slots| ==> !IsBoxSlot(slots[m])
    decreases |slots|
  {
    if slots == [] then 0
    else if IsBoxSlot(Last(slots)) then |slots| - 1
    else
      var i := LatestBox(Init(slots));
      assert forall m :: 0 <= m < |slots| - 1 ==> Init(slots)[m] == slots[m];
      if i == |slots| - 1 then |slots| else i
  }

  /** The last slot that does not. */
  ghost function LatestZone(slots: seq<string>): (i: nat)
    ensures i <= |slots| && (i < |slots| ==> !IsBoxSlot(slots[i]))
            && forall m :: i < m < |slots| ==> IsBoxSlot(slots[m])
    ensures i == |slots| ==> forall m :: 0 <= m < |slots| ==> IsBoxSlot(slots[m])
    decreases |slots|
  {
    if slots == [] then 0
    else if !IsBoxSlot(Last(slots)) then |slots| - 1
    else
      var i := LatestZone(Init(slots));
      assert forall m :: 0 <= m < |slots| - 1 ==> Init(slots)[m] == slots[m];
      if i == |slots| - 1 then |slots| else i
  }

  /** The last slot of either kind is the one that counts, and without any there is none. */
  lemma {:induction false} LastSlotsCount(slots: seq<string>)
    requires AllValid(slots)
    ensures LastBox(slots) == if LatestBox(slots) < |slots| then ParseBox(slots[LatestBox(slots)]) else None
    ensures LastZone(slots) == if LatestZone(slots) < |slots| then Some(slots[LatestZone(slots)]) else None
    decreases |slots|
  {
    if slots != [] {
      hide ParseBox, IsBoxSlot;
      assert forall m :: 0 <= m < |slots| - 1 ==> Init(slots)[m] == slots[m];
      LastSlotsCount(Init(slots));
    }
  }
}
