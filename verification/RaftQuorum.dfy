/**
 * The arithmetic behind advanceCommitIndex: sorting the reported indices in descending order and
 * picking position len/2 yields the greatest index that a strict majority has reached.
 */
module RaftQuorum {
  import opened RaftTypes

  /** How many of the numbers are at least x. */
  function CountAtLeast(s: seq<nat>, x: nat): nat {
    if s == [] then 0 else (if s[0] >= x then 1 else 0) + CountAtLeast(s[1..], x)
  }

  ghost predicate Descending(s: seq<nat>) {
    forall i :: 0 < i < |s| ==> s[i - 1] >= s[i]
  }

  lemma {:induction false} DescendingPair(s: seq<nat>, i: nat, j: nat)
    requires Descending(s) && i <= j < |s|
    ensures s[i] >= s[j]
    decreases j
  {
    if i < j {
      DescendingPair(s, i, j - 1);
    }
  }

  /** The nodes, the leader itself included, whose reported index is at least x. */
  ghost function Reached(last: nat, reported: map<Id, nat>, x: nat): nat {
    |Above(reported, reported.Keys, x)| + (if last >= x then 1 else 0)
  }

  ghost function Above(reported: map<Id, nat>, keys: set<Id>, x: nat): set<Id> {
    set p | p in keys && p in reported && reported[p] >= x
  }

  ghost predicate MajorityReached(last: nat, reported: map<Id, nat>, x: nat) {
    2 * Reached(last, reported, x) > |reported| + 1
  }

  /** q is the greatest index that a strict majority has reached. */
  ghost predicate IsQuorumIndex(last: nat, reported: map<Id, nat>, q: nat) {
    forall x: nat :: MajorityReached(last, reported, x) <==> x <= q
  }

  // ----- counting in sequences -----

  lemma {:induction false} CountBounds(s: seq<nat>, x: nat)
    ensures CountAtLeast(s, x) <= |s|
  {
    if s != [] {
      CountBounds(s[1..], x);
    }
  }

  lemma {:induction false} CountAll(s: seq<nat>, x: nat)
    requires forall i :: 0 <= i < |s| ==> s[i] >= x
    ensures CountAtLeast(s, x) == |s|
  {
    if s != [] {
      CountAll(s[1..], x);
    }
  }

  lemma {:induction false} CountNone(s: seq<nat>, x: nat)
    requires forall i :: 0 <= i < |s| ==> s[i] < x
    ensures CountAtLeast(s, x) == 0
  {
    if s != [] {
      CountNone(s[1..], x);
    }
  }

  lemma {:induction false} CountConcat(a: seq<nat>, b: seq<nat>, x: nat)
    ensures CountAtLeast(a + b, x) == CountAtLeast(a, x) + CountAtLeast(b, x)
  {
    if a == [] {
      assert a + b == b;
    } else {
      assert (a + b)[1..] == a[1..] + b;
      CountConcat(a[1..], b, x);
    }
  }

  lemma RemoveOne(b: seq<nat>, j: nat)
    requires j < |b|
    ensures multiset(b[..j] + b[j + 1..]) == multiset(b) - multiset{b[j]}
  {
    assert b == b[..j] + [b[j]] + b[j + 1..];
  }

  lemma CountRemoveOne(b: seq<nat>, j: nat, x: nat)
    requires j < |b|
    ensures CountAtLeast(b, x) == CountAtLeast(b[..j] + b[j + 1..], x) + (if b[j] >= x then 1 else 0)
  {
    CountConcat(b[..j], b[j + 1..], x);
    CountConcat(b[..j], b[j..], x);
    assert b[..j] + b[j..] == b;
    assert b[j..][1..] == b[j + 1..];
  }

  lemma {:induction false} CountPermutation(a: seq<nat>, b: seq<nat>, x: nat)
    requires multiset(a) == multiset(b)
    ensures CountAtLeast(a, x) == CountAtLeast(b, x)
  {
    if a == [] {
      assert |b| == |multiset(b)| == 0;
    } else {
      assert a[0] in multiset(b);
      var j :| 0 <= j < |b| && b[j] == a[0];
      var rest := b[..j] + b[j + 1..];
      CountRemoveOne(b, j, x);
      assert multiset(a[1..]) == multiset(rest) by {
        RemoveOne(b, j);
        assert a == [a[0]] + a[1..];
      }
      CountPermutation(a[1..], rest, x);
    }
  }

  /** Position len/2 of a descending list is the greatest value that a strict majority reaches. */
  lemma MedianIsGreatestMajority(s: seq<nat>, x: nat)
    requires s != [] && Descending(s)
    ensures x <= s[|s| / 2] <==> 2 * CountAtLeast(s, x) > |s|
  {
    var k := |s| / 2;
    if s[k] >= x {
      var top := s[..k + 1];
      assert s == top + s[k + 1..];
      CountConcat(top, s[k + 1..], x);
      forall i | 0 <= i < |top| ensures top[i] >= x {
        DescendingPair(s, i, k);
      }
      CountAll(top, x);
    } else {
      assert s == s[..k] + s[k..];
      CountConcat(s[..k], s[k..], x);
      CountBounds(s[..k], x);
      var low := s[k..];
      forall i | 0 <= i < |low| ensures low[i] < x {
        DescendingPair(s, k, k + i);
      }
      CountNone(low, x);
    }
  }

  // ----- the quorum index exists and is unique -----

  lemma QuorumIndexUnique(last: nat, reported: map<Id, nat>, q: nat, r: nat)
    requires IsQuorumIndex(last, reported, q) && IsQuorumIndex(last, reported, r)
    ensures q == r
  {
    assert MajorityReached(last, reported, q) && MajorityReached(last, reported, r);
  }

  ghost function QuorumIndex(last: nat, reported: map<Id, nat>): (q: nat)
    ensures IsQuorumIndex(last, reported, q)
  {
    QuorumIndexExists(last, reported);
    var q: nat :| IsQuorumIndex(last, reported, q);
    q
  }

  lemma QuorumIndexExists(last: nat, reported: map<Id, nat>)
    ensures exists q: nat :: IsQuorumIndex(last, reported, q)
  {
    var s := ListOf(last, reported, reported.Keys);
    var d := SortedCopy(s);
    forall x: nat ensures MajorityReached(last, reported, x) <==> x <= d[|d| / 2] {
      PickIsQuorumIndex(last, reported, s, d, x);
    }
    assert IsQuorumIndex(last, reported, d[|d| / 2]);
  }

  /** The list the source collects: the leader's own last index and every reported one. */
  ghost predicate Lists(s: seq<nat>, last: nat, reported: map<Id, nat>, keys: set<Id>)
    requires keys <= reported.Keys
  {
    && |s| == |keys| + 1
    && forall x: nat :: CountAtLeast(s, x) == |Above(reported, keys, x)| + (if last >= x then 1 else 0)
  }

  lemma ListsAdd(s: seq<nat>, last: nat, reported: map<Id, nat>, keys: set<Id>, p: Id)
    requires keys <= reported.Keys && p in reported && p !in keys
    requires Lists(s, last, reported, keys)
    ensures Lists(s + [reported[p]], last, reported, keys + {p})
  {
    forall x: nat
      ensures CountAtLeast(s + [reported[p]], x)
           == |Above(reported, keys + {p}, x)| + (if last >= x then 1 else 0)
    {
      CountConcat(s, [reported[p]], x);
      var before := Above(reported, keys, x);
      assert Above(reported, keys + {p}, x) == if reported[p] >= x then before + {p} else before;
    }
  }

  lemma ListsNothing(last: nat, reported: map<Id, nat>)
    ensures Lists([last], last, reported, {})
  {
    forall x: nat
      ensures CountAtLeast([last], x) == |Above(reported, {}, x)| + (if last >= x then 1 else 0)
    {
      assert Above(reported, {}, x) == {};
    }
  }

  ghost function ListOf(last: nat, reported: map<Id, nat>, keys: set<Id>): (s: seq<nat>)
    requires keys <= reported.Keys
    ensures Lists(s, last, reported, keys)
  {
    if keys == {} then
      ListsNothing(last, reported);
      [last]
    else
      var p :| p in keys;
      var s := ListOf(last, reported, keys - {p});
      ListsAdd(s, last, reported, keys - {p}, p);
      assert keys - {p} + {p} == keys;
      s + [reported[p]]
  }

  lemma PickIsQuorumIndex(last: nat, reported: map<Id, nat>, s: seq<nat>, d: seq<nat>, x: nat)
    requires Lists(s, last, reported, reported.Keys)
    requires Descending(d) && multiset(d) == multiset(s)
    ensures d != [] && |d| == |s|
    ensures MajorityReached(last, reported, x) <==> x <= d[|d| / 2]
  {
    assert |multiset(d)| == |d| && |multiset(s)| == |s|;
    CountPermutation(s, d, x);
    MedianIsGreatestMajority(d, x);
  }

  // ----- sorting in descending order -----

  function Insert(v: nat, s: seq<nat>): seq<nat> {
    if s == [] || v >= s[0] then [v] + s else [s[0]] + Insert(v, s[1..])
  }

  lemma {:induction false} InsertKeeps(v: nat, s: seq<nat>)
    requires Descending(s)
    ensures Insert(v, s) != [] && Insert(v, s)[0] == if s == [] || v >= s[0] then v else s[0]
    ensures Descending(Insert(v, s))
  {
    if s != [] && v < s[0] {
      InsertKeeps(v, s[1..]);
    }
  }

  lemma {:induction false} InsertAdds(v: nat, s: seq<nat>)
    ensures multiset(Insert(v, s)) == multiset(s) + multiset{v}
  {
    if s != [] && v < s[0] {
      InsertAdds(v, s[1..]);
      assert s == [s[0]] + s[1..];
    }
  }

  function SortedCopy(s: seq<nat>): (d: seq<nat>)
    ensures Descending(d) && multiset(d) == multiset(s)
  {
    if s == [] then []
    else
      assert s == [s[0]] + s[1..];
      InsertKeeps(s[0], SortedCopy(s[1..]));
      InsertAdds(s[0], SortedCopy(s[1..]));
      Insert(s[0], SortedCopy(s[1..]))
  }

  /**
   * What advanceCommitIndex computes from the leader's last index and the reported ones: the list
   * in map order, sorted, at position len/2.
   */
  method MajorityIndex(last: nat, reported: map<Id, nat>) returns (q: nat)
    ensures q == QuorumIndex(last, reported)
  {
    var collected := [last];
    var left := reported.Keys;
    ListsNothing(last, reported);
    assert reported.Keys - left == {};
    while left != {}
      invariant left <= reported.Keys
      invariant Lists(collected, last, reported, reported.Keys - left)
    {
      var p :| p in left;
      ListsAdd(collected, last, reported, reported.Keys - left, p);
      assert reported.Keys - left + {p} == reported.Keys - (left - {p});
      collected := collected + [reported[p]];
      left := left - {p};
    }
    assert reported.Keys - left == reported.Keys;
    var sorted := SortedCopy(collected);
    forall x: nat ensures MajorityReached(last, reported, x) <==> x <= sorted[|sorted| / 2] {
      PickIsQuorumIndex(last, reported, collected, sorted, x);
    }
    PickIsQuorumIndex(last, reported, collected, sorted, 0);
    q := sorted[|sorted| / 2];
    QuorumIndexUnique(last, reported, q, QuorumIndex(last, reported));
  }
}
