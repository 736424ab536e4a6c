/**
 * The in-memory log: lookup, the overwrite rule of appendEntry, and what a replay of appended
 * records rebuilds.
 */
module RaftLog {
  import opened RaftTypes

  /** Position of the first entry with the given index, or |log| when there is none. */
  function FirstAt(log: seq<Entry>, index: nat): (i: nat)
    ensures i <= |log|
    ensures i < |log| ==> log[i].index == index
    ensures forall j :: 0 <= j < i ==> log[j].index != index
  {
    if log == [] || log[0].index == index then 0 else 1 + FirstAt(log[1..], index)
  }

  function LastIndex(log: seq<Entry>): nat {
    if log == [] then 0 else log[|log| - 1].index
  }

  function LastTerm(log: seq<Entry>): nat {
    if log == [] then 0 else log[|log| - 1].term
  }

  /** Term of the entry with the given index, or 0 when there is none. */
  function TermAt(log: seq<Entry>, index: nat): nat {
    var i := FirstAt(log, index);
    if i < |log| then log[i].term else 0
  }

  ghost predicate HasEntry(log: seq<Entry>, index: nat, term: nat) {
    exists i :: 0 <= i < |log| && log[i].index == index && log[i].term == term
  }

  /** The log after appendEntry: an entry with a conflicting term cuts off everything from its index on. */
  function AppendOne(log: seq<Entry>, e: Entry): seq<Entry> {
    var i := FirstAt(log, e.index);
    if i == |log| then log + [e]
    else if log[i].term != e.term then log[..i] + [e]
    else log
  }

  /** Whether appendEntry reports the entry as new. */
  predicate IsNew(log: seq<Entry>, e: Entry) {
    var i := FirstAt(log, e.index);
    i == |log| || log[i].term != e.term
  }

  function AppendAll(log: seq<Entry>, es: seq<Entry>): seq<Entry>
    decreases |es|
  {
    if es == [] then log else AppendAll(AppendOne(log, es[0]), es[1..])
  }

  /** The entries among es that appendEntry reports as new, in order. */
  function NewOnes(log: seq<Entry>, es: seq<Entry>): seq<Entry>
    decreases |es|
  {
    if es == [] then []
    else (if IsNew(log, es[0]) then [es[0]] else []) + NewOnes(AppendOne(log, es[0]), es[1..])
  }

  /** The loop of handleAppendEntries: append one by one and collect what was new. */
  function AppendTracking(log: seq<Entry>, added: seq<Entry>, es: seq<Entry>): (seq<Entry>, seq<Entry>)
    decreases |es|
  {
    if es == [] then (log, added)
    else AppendTracking(AppendOne(log, es[0]), added + (if IsNew(log, es[0]) then [es[0]] else []), es[1..])
  }

  lemma {:induction false} AppendTrackingMeaning(log: seq<Entry>, added: seq<Entry>, es: seq<Entry>)
    ensures AppendTracking(log, added, es) == (AppendAll(log, es), added + NewOnes(log, es))
    decreases |es|
  {
    if es == [] {
      assert added + [] == added;
    } else {
      var head := if IsNew(log, es[0]) then [es[0]] else [];
      var rest := NewOnes(AppendOne(log, es[0]), es[1..]);
      AppendTrackingMeaning(AppendOne(log, es[0]), added + head, es[1..]);
      assert added + head + rest == added + (head + rest);
    }
  }

  /** The log's entries whose index lies in [lo, hi]. */
  function EntriesBetween(log: seq<Entry>, lo: nat, hi: nat): seq<Entry> {
    if log == [] then []
    else
      var last := log[|log| - 1];
      EntriesBetween(log[..|log| - 1], lo, hi) + (if lo <= last.index <= hi then [last] else [])
  }

  /** Indices run 1, 2, 3, ... */
  ghost predicate Contiguous(log: seq<Entry>) {
    forall i :: 0 <= i < |log| ==> log[i].index == i + 1
  }

  lemma ContiguousLookup(log: seq<Entry>, index: nat)
    requires Contiguous(log)
    ensures FirstAt(log, index) == if 1 <= index <= |log| then index - 1 else |log|
    ensures LastIndex(log) == |log|
  {
    var i := FirstAt(log, index);
    if 1 <= index <= |log| {
      assert log[index - 1].index == index;
    }
  }

  /** In a contiguous log the entries from lo on are exactly the suffix that starts there. */
  lemma {:induction false} ContiguousSuffix(log: seq<Entry>, lo: nat, hi: nat)
    requires Contiguous(log) && 1 <= lo && |log| <= hi
    ensures EntriesBetween(log, lo, hi) == if lo <= |log| then log[lo - 1..] else []
    decreases |log|
  {
    if log != [] {
      ContiguousSuffix(log[..|log| - 1], lo, hi);
    }
  }

  /** Replaying only the entries reported as new rebuilds the same log as replaying all of them. */
  lemma {:induction false} NewOnesSuffice(log: seq<Entry>, es: seq<Entry>)
    ensures AppendAll(log, NewOnes(log, es)) == AppendAll(log, es)
    decreases |es|
  {
    if es != [] {
      var rest := NewOnes(AppendOne(log, es[0]), es[1..]);
      NewOnesSuffice(AppendOne(log, es[0]), es[1..]);
      if IsNew(log, es[0]) {
        assert NewOnes(log, es) == [es[0]] + rest;
        assert ([es[0]] + rest)[1..] == rest;
      } else {
        assert NewOnes(log, es) == rest;
      }
    }
  }

  lemma {:induction false} AppendAllConcat(log: seq<Entry>, es: seq<Entry>, fs: seq<Entry>)
    ensures AppendAll(log, es + fs) == AppendAll(AppendAll(log, es), fs)
    decreases |es|
  {
    if es == [] {
      assert es + fs == fs;
    } else {
      assert (es + fs)[0] == es[0] && (es + fs)[1..] == es[1..] + fs;
      AppendAllConcat(AppendOne(log, es[0]), es[1..], fs);
    }
  }

  // ----- the source's loops over the log -----

  method FindEntry(log: seq<Entry>, index: nat, term: nat) returns (found: bool)
    ensures found <==> HasEntry(log, index, term)
  {
    for i := 0 to |log|
      invariant forall j :: 0 <= j < i ==> !(log[j].index == index && log[j].term == term)
    {
      if log[i].index == index && log[i].term == term {
        return true;
      }
    }
    return false;
  }

  method LookupTerm(log: seq<Entry>, index: nat) returns (term: nat)
    ensures term == TermAt(log, index)
  {
    for i := 0 to |log|
      invariant forall j :: 0 <= j < i ==> log[j].index != index
    {
      if log[i].index == index {
        return log[i].term;
      }
    }
    return 0;
  }

  method SelectEntries(log: seq<Entry>, lo: nat, hi: nat) returns (es: seq<Entry>)
    ensures es == EntriesBetween(log, lo, hi)
  {
    es := [];
    var i := 0;
    while i < |log|
      invariant 0 <= i <= |log|
      invariant es == EntriesBetween(log[..i], lo, hi)
    {
      assert log[..i + 1][..i] == log[..i];
      if lo <= log[i].index <= hi {
        es := es + [log[i]];
      }
      i := i + 1;
    }
    assert log[..|log|] == log;
  }
}
