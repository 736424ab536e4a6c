/** Wildcard patterns of certificate rules: greedy matching against the declarative meaning. */
module Glob {

  const STAR: char := '*'

  // ----- what a pattern means -----

  function Stars(p: string): nat {
    if p == "" then 0 else (if p[0] == STAR then 1 else 0) + Stars(p[1..])
  }

  /** p with its stars replaced, in order, by ws. */
  function Expand(p: string, ws: seq<string>): string
    requires |ws| == Stars(p)
  {
    if p == "" then ""
    else if p[0] == STAR then ws[0] + Expand(p[1..], ws[1..])
    else [p[0]] + Expand(p[1..], ws)
  }

  /** Each star of p can stand for some, possibly empty, string so that p becomes s. */
  ghost predicate Matches(s: string, p: string) {
    exists ws: seq<string> :: |ws| == Stars(p) && Expand(p, ws) == s
  }

  // ----- the parts between stars -----

  /** strings.Split(p, "*") */
  function Split(p: string): (parts: seq<string>)
    ensures |parts| == Stars(p) + 1
  {
    if p == "" then [""]
    else
      var rest := Split(p[1..]);
      if p[0] == STAR then [""] + rest else [[p[0]] + rest[0]] + rest[1..]
  }

  /** A gap before each part. */
  function Spaced(parts: seq<string>, ws: seq<string>): string
    requires |ws| == |parts|
  {
    if parts == [] then "" else ws[0] + parts[0] + Spaced(parts[1..], ws[1..])
  }

  lemma {:induction false} ExpandIsSpaced(p: string, ws: seq<string>)
    requires |ws| == Stars(p)
    ensures Expand(p, ws) == Split(p)[0] + Spaced(Split(p)[1..], ws)
  {
    if p != "" {
      var rest := Split(p[1..]);
      if p[0] == STAR {
        ExpandIsSpaced(p[1..], ws[1..]);
        assert Split(p)[1..] == rest;
        calc {
          Expand(p, ws);
          ws[0] + (rest[0] + Spaced(rest[1..], ws[1..]));
          ws[0] + rest[0] + Spaced(rest[1..], ws[1..]);
          "" + Spaced(rest, ws);
        }
      } else {
        ExpandIsSpaced(p[1..], ws);
        assert Split(p)[1..] == rest[1..];
        assert [p[0]] + (rest[0] + Spaced(rest[1..], ws)) == [p[0]] + rest[0] + Spaced(rest[1..], ws);
      }
    }
  }

  /** t is the parts in order, with anything before each. */
  ghost predicate Follow(t: string, parts: seq<string>) {
    exists ws: seq<string> :: |ws| == |parts| && Spaced(parts, ws) == t
  }

  predicate HasPrefix(s: string, q: string) {
    |q| <= |s| && s[..|q|] == q
  }

  predicate HasSuffix(s: string, q: string) {
    |q| <= |s| && s[|s| - |q|..] == q
  }

  predicate OccursAt(s: string, q: string, i: int) {
    0 <= i && i + |q| <= |s| && s[i..i + |q|] == q
  }

  ghost predicate Nowhere(s: string, q: string) {
    forall k :: 0 <= k <= |s| ==> !OccursAt(s, q, k)
  }

  ghost predicate FirstAt(s: string, q: string, i: int) {
    OccursAt(s, q, i) && forall k :: 0 <= k < i ==> !OccursAt(s, q, k)
  }

  lemma MatchesParts(s: string, p: string)
    ensures Matches(s, p) <==> HasPrefix(s, Split(p)[0]) && Follow(s[|Split(p)[0]|..], Split(p)[1..])
  {
    var q, rest := Split(p)[0], Split(p)[1..];
    if Matches(s, p) {
      var ws: seq<string> :| |ws| == Stars(p) && Expand(p, ws) == s;
      ExpandIsSpaced(p, ws);
      assert s[|q|..] == Spaced(rest, ws);
    }
    if HasPrefix(s, q) && Follow(s[|q|..], rest) {
      var ws: seq<string> :| |ws| == |rest| && Spaced(rest, ws) == s[|q|..];
      ExpandIsSpaced(p, ws);
      assert s == q + s[|q|..];
    }
  }

  // ----- taking the leftmost occurrence is enough -----

  /** Whatever can follow can also follow later. */
  lemma FollowLater(v: string, t: string, parts: seq<string>)
    requires Follow(t, parts) && parts != []
    ensures Follow(v + t, parts)
  {
    var ws: seq<string> :| |ws| == |parts| && Spaced(parts, ws) == t;
    var ws' := [v + ws[0]] + ws[1..];
    assert ws'[1..] == ws[1..];
    assert v + (ws[0] + parts[0] + Spaced(parts[1..], ws[1..])) == v + ws[0] + parts[0] + Spaced(parts[1..], ws[1..]);
    assert Spaced(parts, ws') == v + t;
  }

  lemma CutOnce(t: string, i: nat, j: nat)
    requires i <= j <= |t|
    ensures t[i..j] + t[j..] == t[i..]
  {
  }

  lemma CutTwice(t: string, i: nat, j: nat)
    requires i <= j <= |t|
    ensures t == t[..i] + t[i..j] + t[j..]
  {
  }

  lemma FollowFrom(t: string, parts: seq<string>, i: int)
    requires parts != [] && OccursAt(t, parts[0], i) && Follow(t[i + |parts[0]|..], parts[1..])
    ensures Follow(t, parts)
  {
    var q := parts[0];
    var ws: seq<string> :| |ws| == |parts| - 1 && Spaced(parts[1..], ws) == t[i + |q|..];
    var ws' := [t[..i]] + ws;
    assert ws'[0] == t[..i] && ws'[1..] == ws;
    CutTwice(t, i, i + |q|);
    assert Spaced(parts, ws') == t[..i] + q + t[i + |q|..];
  }

  lemma FollowSplits(t: string, parts: seq<string>) returns (i: int)
    requires parts != [] && Follow(t, parts)
    ensures OccursAt(t, parts[0], i) && Follow(t[i + |parts[0]|..], parts[1..])
  {
    var q := parts[0];
    var ws: seq<string> :| |ws| == |parts| && Spaced(parts, ws) == t;
    i := |ws[0]|;
    var rest := Spaced(parts[1..], ws[1..]);
    assert t == ws[0] + q + rest;
    assert t[i + |q|..] == rest && t[i..i + |q|] == q;
  }

  lemma Greedy(t: string, parts: seq<string>, i: int)
    requires |parts| >= 2 && FirstAt(t, parts[0], i)
    ensures Follow(t, parts) <==> Follow(t[i + |parts[0]|..], parts[1..])
  {
    hide Follow;
    var n := |parts[0]|;
    if Follow(t, parts) {
      var k := FollowSplits(t, parts);
      assert i <= k;
      FollowLater(t[i + n..k + n], t[k + n..], parts[1..]);
      CutOnce(t, i + n, k + n);
    }
    if Follow(t[i + n..], parts[1..]) {
      FollowFrom(t, parts, i);
    }
  }

  lemma LastPart(t: string, q: string)
    ensures Follow(t, [q]) <==> HasSuffix(t, q)
  {
    if Follow(t, [q]) {
      var ws: seq<string> :| |ws| == 1 && Spaced([q], ws) == t;
      assert Spaced([q][1..], ws[1..]) == "";
      assert t == ws[0] + q + "";
    }
    if HasSuffix(t, q) {
      assert Spaced([q], [t[..|t| - |q|]]) == t[..|t| - |q|] + q + "";
      assert t == t[..|t| - |q|] + q;
    }
  }

  // ----- the matcher -----

  /** strings.Index: the first occurrence, or -1. */
  method Index(s: string, q: string) returns (r: int)
    ensures r == -1 ==> Nowhere(s, q)
    ensures r != -1 ==> FirstAt(s, q, r) && 0 <= r <= r + |q| <= |s|
  {
    r := 0;
    while r + |q| <= |s|
      invariant 0 <= r
      invariant forall k :: 0 <= k < r ==> !OccursAt(s, q, k)
    {
      if s[r..r + |q|] == q {
        return;
      }
      r := r + 1;
    }
    r := -1;
  }

  lemma {:induction false} NoStars(p: string)
    ensures STAR !in p <==> Stars(p) == 0
    ensures STAR !in p ==> Expand(p, []) == p
  {
    if p != "" {
      NoStars(p[1..]);
      assert p == [p[0]] + p[1..];
    }
  }

  lemma LiteralMatches(s: string, p: string)
    requires STAR !in p
    ensures Matches(s, p) <==> s == p
  {
    NoStars(p);
    if Matches(s, p) {
      var ws: seq<string> :| |ws| == Stars(p) && Expand(p, ws) == s;
      assert ws == [];
    }
  }

  lemma StarMatches(s: string)
    ensures Matches(s, "*")
  {
    var p := "*";
    assert p[1..] == "" && Stars(p) == 1;
    assert Expand(p, [s]) == s + "";
  }

  lemma NowhereFollows(t: string, parts: seq<string>)
    requires parts != [] && Nowhere(t, parts[0])
    ensures !Follow(t, parts)
  {
    if Follow(t, parts) {
      var k := FollowSplits(t, parts);
    }
  }

  /** The parts from the i-th on still have to follow in t. */
  ghost predicate FollowAt(t: string, parts: seq<string>, i: nat)
    requires i <= |parts|
  {
    Follow(t, parts[i..])
  }

  lemma GreedyAt(t: string, parts: seq<string>, i: nat, at: nat)
    requires i + 1 < |parts| && FirstAt(t, parts[i], at) && at + |parts[i]| <= |t|
    ensures FollowAt(t, parts, i) <==> FollowAt(t[at + |parts[i]|..], parts, i + 1)
  {
    Greedy(t, parts[i..], at);
    assert parts[i..][1..] == parts[i + 1..];
  }

  lemma NowhereAt(t: string, parts: seq<string>, i: nat)
    requires i < |parts| && Nowhere(t, parts[i])
    ensures !FollowAt(t, parts, i)
  {
    NowhereFollows(t, parts[i..]);
  }

  lemma LastAt(t: string, parts: seq<string>)
    requires parts != []
    ensures FollowAt(t, parts, |parts| - 1) <==> HasSuffix(t, parts[|parts| - 1])
  {
    LastPart(t, parts[|parts| - 1]);
    assert parts[|parts| - 1..] == [parts[|parts| - 1]];
  }

  lemma MatchesAt(s: string, p: string)
    ensures Matches(s, p) <==> HasPrefix(s, Split(p)[0]) && FollowAt(s[|Split(p)[0]|..], Split(p), 1)
  {
    MatchesParts(s, p);
  }

  /** matchPattern is sound and complete: it says yes exactly when the stars can be filled in. */
  method MatchPattern(text: string, pattern: string) returns (r: bool)
    ensures r <==> Matches(text, pattern)
  {
    hide Matches, FollowAt, Split, Stars, FirstAt, Nowhere, HasSuffix;
    if pattern == "*" {
      StarMatches(text);
      return true;
    }
    if STAR !in pattern {
      LiteralMatches(text, pattern);
      return text == pattern;
    }
    NoStars(pattern);
    var parts := Split(pattern);
    MatchesAt(text, pattern);
    if !HasPrefix(text, parts[0]) {
      return false;
    }
    var s := text[|parts[0]|..];
    for i := 1 to |parts| - 1
      invariant Matches(text, pattern) <==> FollowAt(s, parts, i)
    {
      var at := Index(s, parts[i]);
      if at == -1 {
        NowhereAt(s, parts, i);
        return false;
      }
      GreedyAt(s, parts, i, at);
      s := s[at + |parts[i]|..];
    }
    LastAt(s, parts);
    return HasSuffix(s, parts[|parts| - 1]);
  }
}
