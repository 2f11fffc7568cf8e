/** Small data types and sequence helpers that several modules share. */
module Common {

  type Cell = (int, int)

  datatype Option<+T> = None | Some(value: T)

  function Init<T>(s: seq<T>): seq<T>
    requires s != []
  {
    s[..|s| - 1]
  }

  function Last<T>(s: seq<T>): T
    requires s != []
  {
    s[|s| - 1]
  }

  ghost predicate Distinct<T>(s: seq<T>)
  {
    forall i, j :: 0 <= i < j < |s| ==> s[i] != s[j]
  }

  /** A duplicate-free sequence drawn from a finite set is no longer than the set. */
  lemma {:induction false} DistinctBound<T>(s: seq<T>, pool: set<T>)
    requires Distinct(s)
    requires forall i :: 0 <= i < |s| ==> s[i] in pool
    ensures |s| <= |pool|
  {
    if s != [] {
      var rest := pool - {Last(s)};
      forall i | 0 <= i < |Init(s)|
        ensures Init(s)[i] in rest
      {
        assert Init(s)[i] == s[i] != s[|s| - 1];
      }
      DistinctBound(Init(s), rest);
      assert |pool| == |rest| + 1;
    }
  }

  /** A sequence has at least as many places as members, and exactly as many when none repeats. */
  lemma {:induction false} MemberCount<T>(s: seq<T>)
    ensures |set x | x in s| <= |s|
    ensures Distinct(s) ==> |set x | x in s| == |s|
  {
    if s != [] {
      MemberCount(Init(s));
      assert s == Init(s) + [Last(s)];
      assert (set x | x in s) == (set x | x in Init(s)) + {Last(s)};
    }
  }

  /** The members of a finite set in some order, each once. */
  lemma {:induction false} Enumerate<T>(members: set<T>) returns (s: seq<T>)
    ensures |s| == |members| && Distinct(s) && forall x :: x in s <==> x in members
  {
    if members == {} {
      s := [];
    } else {
      var x :| x in members;
      var rest := Enumerate(members - {x});
      s := [x] + rest;
    }
  }
}
