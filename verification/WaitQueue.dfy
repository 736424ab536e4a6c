/**
 * The wait queue of internal/pool/pool.go: a slice with a head index, nil holes where waiters gave
 * up, and lazy compaction, proved to be a plain first-in-first-out queue with deletion.
 */
module WaitQueues {
  import opened Bytes
  import opened ServerConns

  /** The waiters that are still there, in order of arrival. */
  function Present(s: seq<Option<nat>>): seq<nat> {
    if s == [] then []
    else (if s[0].Some? then [s[0].value] else []) + Present(s[1..])
  }

  function Without(s: seq<nat>, w: nat): seq<nat> {
    if s == [] then []
    else if s[0] == w then s[1..]
    else [s[0]] + Without(s[1..], w)
  }

  lemma PresentHead(s: seq<Option<nat>>)
    requires s != []
    ensures Present(s) == (if s[0].Some? then [s[0].value] else []) + Present(s[1..])
  {
  }

  lemma {:induction false} PresentConcat(s: seq<Option<nat>>, t: seq<Option<nat>>)
    ensures Present(s + t) == Present(s) + Present(t)
  {
    if s == [] {
      assert s + t == t;
    } else {
      assert (s + t)[0] == s[0] && (s + t)[1..] == s[1..] + t;
      PresentConcat(s[1..], t);
      PresentHead(s);
      PresentHead(s + t);
      hide Present;
    }
  }

  lemma PresentOne(w: nat)
    ensures Present([Some(w)]) == [w]
  {
  }

  lemma {:induction false} PresentLength(s: seq<Option<nat>>)
    ensures |Present(s)| <= |s|
    ensures |Present(s)| == |s| <==> None !in s
  {
    if s != [] {
      PresentLength(s[1..]);
    }
  }

  lemma {:induction false} PresentHas(s: seq<Option<nat>>, w: nat)
    ensures w in Present(s) <==> Some(w) in s
  {
    if s != [] {
      PresentHas(s[1..], w);
    }
  }

  lemma {:induction false} WithoutLater(s: seq<nat>, w: nat, t: seq<nat>)
    requires w !in s
    ensures Without(s + [w] + t, w) == s + t
  {
    if s == [] {
      assert s + [w] + t == [w] + t && s + t == t;
    } else {
      assert (s + [w] + t)[1..] == s[1..] + [w] + t;
      WithoutLater(s[1..], w, t);
      assert s + t == [s[0]] + (s[1..] + t);
    }
  }

  lemma {:induction false} WithoutAbsent(s: seq<nat>, w: nat)
    requires w !in s
    ensures Without(s, w) == s
  {
    if s != [] {
      WithoutAbsent(s[1..], w);
    }
  }

  /** Clearing the slot of a waiter deletes exactly that waiter from the queue. */
  lemma ClearedSlot(s: seq<Option<nat>>, i: nat, w: nat)
    requires i < |s| && s[i] == Some(w) && forall j :: 0 <= j < i ==> s[j] != Some(w)
    ensures Present(s[i := None]) == Without(Present(s), w)
  {
    var a, b := s[..i], s[i + 1..];
    assert s == a + ([Some(w)] + b) && s[i := None] == a + ([None] + b);
    assert ([Some(w)] + b)[1..] == b && ([None] + b)[1..] == b;
    PresentConcat(a, [Some(w)] + b);
    PresentConcat(a, [None] + b);
    PresentHas(a, w);
    assert Present(s) == Present(a) + [w] + Present(b);
    WithoutLater(Present(a), w, Present(b));
  }

  ghost predicate Rising(s: seq<nat>) {
    forall i, j :: 0 <= i < j < |s| ==> s[i] < s[j]
  }

  /** Waiters are numbered in order of arrival below next, and none of them is among the served. */
  ghost predicate Orderly(q: seq<nat>, next: nat, served: set<nat>) {
    && Rising(q)
    && (forall i :: 0 <= i < |q| ==> q[i] < next && q[i] !in served)
    && (forall w :: w in served ==> w < next)
  }

  lemma OrderlyJoin(q: seq<nat>, next: nat, served: set<nat>)
    requires Orderly(q, next, served)
    ensures Orderly(q + [next], next + 1, served)
  {
  }

  lemma OrderlyWithout(q: seq<nat>, w: nat, next: nat, served: set<nat>)
    requires Orderly(q, next, served)
    ensures Orderly(Without(q, w), next, served)
  {
    WithoutSorted(q, w);
    var t := Without(q, w);
    forall i | 0 <= i < |t| ensures t[i] < next && t[i] !in served {
      assert t[i] in q;
    }
  }

  lemma OrderlyServe(q: seq<nat>, w: nat, rest: seq<nat>, next: nat, served: set<nat>)
    requires Orderly(q, next, served) && q == [w] + rest
    ensures Orderly(rest, next, served + {w}) && w !in served
  {
    assert q[0] == w && forall i :: 0 <= i < |rest| ==> q[i + 1] == rest[i];
  }

  lemma {:induction false} WithoutSorted(s: seq<nat>, w: nat)
    requires Rising(s)
    ensures Rising(Without(s, w)) && forall v :: v in Without(s, w) ==> v in s
  {
    if s != [] && s[0] != w {
      assert Rising(s[1..]);
      WithoutSorted(s[1..], w);
      var t := Without(s[1..], w);
      forall j | 0 <= j < |t| ensures s[0] < t[j] {
        assert t[j] in s[1..];
      }
    }
  }

  class WaitQueue {
    const maxSize: nat
    var waiters: seq<Option<nat>>
    var head: nat
    var nextWaiter: nat
    var delivered: map<nat, Conn>  // the conn field of each waiter that got one

    ghost predicate InRange()
      reads this
    {
      head <= |waiters| && maxSize >= 1
    }

    /** The queue as its users see it. */
    ghost function Queue(): seq<nat>
      reads this
      requires InRange()
    {
      Present(waiters[head..])
    }

    /** Waiters are numbered in order of arrival; a queued waiter has no connection yet. */
    ghost predicate Valid()
      reads this
    {
      && InRange()
      && |waiters| - head <= maxSize
      && Orderly(Queue(), nextWaiter, delivered.Keys)
    }

    constructor (maxSize: int)
      ensures Valid() && Queue() == [] && waiters == [] && delivered == map[] && nextWaiter == 0
      ensures this.maxSize == if maxSize <= 0 then 1000 else maxSize
    {
      this.maxSize := if maxSize <= 0 then 1000 else maxSize;
      waiters, head, nextWaiter, delivered := [], 0, 0, map[];
    }

    method Shrink()
      requires InRange()
      modifies `waiters, `head
      ensures head == 0 && waiters == old(waiters)[old(head)..]
    {
      if head > 0 {
        waiters := waiters[head..];
        head := 0;
      }
    }

    method Compact()
      requires InRange()
      modifies `waiters, `head
      ensures InRange() && waiters[head..] == old(waiters[head..])
    {
      if head > |waiters| / 2 {
        Shrink();
        assert waiters[0..] == waiters;
      }
    }

    /**
     * The first part of Wait: refused exactly when the slots from head on, holes included, fill the
     * queue; otherwise a new waiter joins at the end.
     */
    method Join() returns (w: Option<nat>)
      requires Valid()
      modifies `waiters, `head, `nextWaiter
      ensures Valid()
      ensures w.None? <==> old(|waiters| - head) >= maxSize
      ensures w.None? ==> Queue() == old(Queue()) && nextWaiter == old(nextWaiter)
      ensures w.Some? ==> w.value == old(nextWaiter) && Queue() == old(Queue()) + [w.value]
      ensures w.Some? ==> waiters[head..] == old(waiters[head..]) + [w] && nextWaiter == old(nextWaiter) + 1
    {
      if |waiters| - head >= maxSize {
        return None;
      }
      hide Orderly, Present;
      Shrink();
      PresentConcat(waiters, [Some(nextWaiter)]);
      PresentOne(nextWaiter);
      OrderlyJoin(Present(waiters), nextWaiter, delivered.Keys);
      ghost var before := waiters;
      waiters := waiters + [Some(nextWaiter)];
      w := Some(nextWaiter);
      nextWaiter := nextWaiter + 1;
      assert waiters[0..] == before + [w];
    }

    /** The deferred part of Wait: the waiter, if still queued, leaves; everyone else keeps their place. */
    method Leave(w: nat)
      requires Valid()
      modifies `waiters, `head
      ensures Valid() && Queue() == Without(old(Queue()), w)
      ensures old(head < |waiters| && waiters[head] != Some(w)) ==> |waiters| - head == old(|waiters| - head)
    {
      ghost var s := waiters[head..];
      OrderlyWithout(Present(s), w, nextWaiter, delivered.Keys);
      hide Orderly, Without;
      var i := head;
      while i < |waiters| && waiters[i] != Some(w)
        invariant head <= i <= |waiters| && waiters == old(waiters) && head == old(head)
        invariant forall j :: head <= j < i ==> waiters[j] != Some(w)
      {
        i := i + 1;
      }
      if i < |waiters| {
        ClearedSlot(s, i - head, w);
        waiters := waiters[i := None];
        assert waiters[head..] == s[i - head := None];
        if i == head {
          assert waiters[head..][1..] == waiters[head + 1..];
          head := head + 1;
        }
      } else {
        assert forall j :: 0 <= j < |s| ==> s[j] == waiters[head + j];
        PresentHas(s, w);
        WithoutAbsent(Present(s), w);
      }
      Compact();
    }

    /** Signal: the longest waiting client gets the connection; refused exactly when nobody waits. */
    method Signal(conn: Conn) returns (w: Option<nat>)
      requires Valid()
      modifies `waiters, `head, `delivered
      ensures Valid()
      ensures w.None? <==> old(Queue()) == []
      ensures w.None? ==> Queue() == [] && delivered == old(delivered)
      ensures w.Some? ==> old(Queue()) == [w.value] + Queue()
      ensures w.Some? ==> w.value !in old(delivered) && delivered == old(delivered)[w.value := conn]
    {
      hide Orderly;
      while head < |waiters| && waiters[head] == None
        invariant head <= |waiters| && waiters == old(waiters) && old(head) <= head && delivered == old(delivered)
        invariant Present(waiters[head..]) == old(Queue())
      {
        assert waiters[head..][1..] == waiters[head + 1..];
        head := head + 1;
      }
      if head >= |waiters| {
        return None;
      }
      ghost var s := waiters[head..];
      assert s[0] == waiters[head] && s[1..] == waiters[head + 1..];
      w := waiters[head];
      assert old(Queue()) == [w.value] + Present(s[1..]);
      waiters := waiters[head := None];
      head := head + 1;
      assert waiters[head..] == s[1..];
      Compact();
      assert Queue() == Present(s[1..]);
      OrderlyServe(old(Queue()), w.value, Queue(), nextWaiter, delivered.Keys);
      delivered := delivered[w.value := conn];
      assert delivered.Keys == old(delivered.Keys) + {w.value};
    }
  }

  /**
   * "Refused only when maxSize clients are waiting" is false of the code: after the second of two
   * waiters gave up, its hole still fills a queue of size 2.
   */
  method RefusedWithRoom() returns (q: WaitQueue, third: Option<nat>)
    ensures q.Valid() && q.maxSize == 2 && |q.Queue()| == 1 && third == None
  {
    hide Present, Orderly;
    q := new WaitQueue(2);
    assert q.waiters[q.head..] == [];
    var first := q.Join();
    assert q.waiters[q.head..] == [first];
    assert q.waiters[q.head] == first;
    var second := q.Join();
    assert q.waiters[q.head..] == [first, second];
    assert q.waiters[q.head] == first && q.Queue() == [0, 1];
    q.Leave(1);
    assert q.Queue() == [0] by {
      WithoutLater([0], 1, []);
      assert [0] + [1] + [] == [0, 1] && [0] + [] == [0];
    }
    third := q.Join();
  }

  /** It holds exactly when no waiter behind the head has left a hole. */
  lemma RefusedOnlyWhenFull(slots: seq<Option<nat>>, maxSize: nat)
    requires |slots| == maxSize
    ensures |Present(slots)| == maxSize <==> None !in slots
  {
    PresentLength(slots);
  }
}
