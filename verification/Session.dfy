/**
 * A client session and the three pooling strategies that decide which server connection its
 * messages go to.  The pool is seen only through its answers to Acquire and the calls made on it.
 */
module Sessions {
  import opened Bytes
  import opened ServerConns
  import opened PoolSystem

  /** What the codec says of a message; query covers simple queries and executes. */
  datatype Message = Message(begin: bool, query: bool, end: bool)

  /** Pool.Acquire: an error, or a connection that HandleMessage still checks for nil. */
  datatype Answer = Refused | Granted(conn: Option<Conn>)

  /** What one HandleMessage call meets: whether the pool has a codec, its answer, and the write. */
  datatype Surroundings = Surroundings(codec: bool, answer: Answer, writeOk: bool)

  datatype Failure = NoCodec | NoTransactions | AcquireFailed | NoConnection | WriteFailed

  datatype Call = Acquired(conn: Conn) | Released(conn: Conn)

  /** txns is the pool's transaction counter; calls is what the session has asked of the pool. */
  datatype Data = Data(
    mode: Mode,
    held: Option<Conn>,
    inTxn: bool,
    autoCommit: bool,
    queries: nat,
    txns: nat,
    calls: seq<Call>)

  datatype Outcome = Outcome(data: Data, sent: Option<Conn>, failure: Option<Failure>)

  function Fresh(mode: Mode): Data {
    Data(mode, None, false, true, 0, 0, [])
  }

  // ----- the strategies -----

  function ReleaseHeld(d: Data): Data {
    if d.held.Some? then d.(held := None, calls := d.calls + [Released(d.held.value)]) else d
  }

  function Take(d: Data, conn: Option<Conn>): Data {
    d.(held := conn, calls := if conn.Some? then d.calls + [Acquired(conn.value)] else d.calls)
  }

  function OnQuery(d: Data, begin: bool, answer: Answer): (Data, Answer) {
    if d.mode != StatementMode && d.held.Some? then (d, Granted(d.held))
    else if answer.Refused? then (d, Refused)
    else
      var d1 := Take(d, answer.conn);
      (if d.mode == TransactionMode && !d.inTxn && !begin then d1.(autoCommit := true) else d1, answer)
  }

  function OnQueryComplete(d: Data): Data {
    match d.mode
    case SessionMode => d
    case TransactionMode =>
      if !d.inTxn && d.autoCommit && d.held.Some? then ReleaseHeld(d).(autoCommit := false) else d
    case StatementMode => ReleaseHeld(d)
  }

  function OnTransactionEnd(d: Data): Data {
    match d.mode
    case SessionMode => d.(inTxn := false)
    case TransactionMode => ReleaseHeld(d.(inTxn := false)).(txns := d.txns + 1)
    case StatementMode => d
  }

  // ----- HandleMessage -----

  function EndPart(d: Data, m: Message, sent: Option<Conn>): Outcome {
    Outcome(if m.end then OnTransactionEnd(d.(inTxn := false)) else d, sent, None)
  }

  function QueryPart(d: Data, m: Message, e: Surroundings): Outcome {
    if !m.query then EndPart(d, m, None)
    else
      var (d1, got) := OnQuery(d.(queries := d.queries + 1), m.begin, e.answer);
      if got.Refused? then Outcome(d1, None, Some(AcquireFailed))
      else if got.conn.None? then Outcome(d1, None, Some(NoConnection))
      else if !e.writeOk then Outcome(d1, got.conn, Some(WriteFailed))
      else EndPart(OnQueryComplete(d1), m, got.conn)
  }

  function Handle(d: Data, msg: Option<Message>, e: Surroundings): Outcome {
    if msg.None? then Outcome(d, None, None)
    else if !e.codec then Outcome(d, None, Some(NoCodec))
    else
      var m := msg.value;
      if m.begin && d.mode == StatementMode then Outcome(d.(inTxn := true), None, Some(NoTransactions))
      else QueryPart(if m.begin then d.(inTxn := true) else d, m, e)
  }

  // ----- one message -----

  ghost predicate HeldOnlyInTransaction(d: Data) {
    d.held.Some? ==> d.inTxn
  }

  /** A query that does not begin a transaction gets a connection of the pool and cannot be written to it. */
  predicate CannotWrite(msg: Option<Message>, e: Surroundings) {
    && msg.Some? && e.codec && msg.value.query && !msg.value.begin
    && e.answer.Granted? && e.answer.conn.Some? && !e.writeOk
  }

  /** In transaction mode a connection is kept outside a transaction exactly when an autocommit query cannot be written. */
  lemma TransactionModeBetweenMessages(d: Data, msg: Option<Message>, e: Surroundings)
    requires d.mode == TransactionMode && HeldOnlyInTransaction(d)
    ensures HeldOnlyInTransaction(Handle(d, msg, e).data) <==> d.inTxn || !CannotWrite(msg, e)
  {
  }

  /** In statement mode nothing is held between messages, exactly unless a query cannot be written. */
  lemma StatementModeBetweenMessages(d: Data, msg: Option<Message>, e: Surroundings)
    requires d.mode == StatementMode && d.held.None?
    ensures Handle(d, msg, e).data.held.None? <==> !CannotWrite(msg, e)
  {
  }

  // ----- runs -----

  datatype Event =
    | Connect(answer: Answer)
    | Deliver(msg: Option<Message>, env: Surroundings)
    | Disconnect

  /** OnClientConnect and OnClientDisconnect of the three strategies, and HandleMessage. */
  function Happen(d: Data, event: Event): Outcome {
    match event
    case Connect(answer) =>
      if d.mode != SessionMode then Outcome(d, None, None)
      else if answer.Refused? then Outcome(d, None, Some(AcquireFailed))
      else Outcome(Take(d, answer.conn), None, None)
    case Deliver(msg, env) => Handle(d, msg, env)
    case Disconnect => Outcome(ReleaseHeld(d), None, None)
  }

  function StateAfter(mode: Mode, events: seq<Event>): Data {
    if events == [] then Fresh(mode)
    else Happen(StateAfter(mode, events[..|events| - 1]), events[|events| - 1]).data
  }

  function OutcomeAt(mode: Mode, events: seq<Event>, i: nat): Outcome
    requires i < |events|
  {
    Happen(StateAfter(mode, events[..i]), events[i])
  }

  lemma StateStep(mode: Mode, events: seq<Event>, i: nat)
    requires i < |events|
    ensures StateAfter(mode, events[..i + 1]) == OutcomeAt(mode, events, i).data
  {
    assert events[..i + 1][..i] == events[..i];
  }

  // ----- transaction affinity -----

  predicate Begins(event: Event) {
    event.Deliver? && event.msg.Some? && event.env.codec && event.msg.value.begin
  }

  /** An event that may finish a transaction. */
  predicate Finishes(event: Event) {
    event.Disconnect? || (event.Deliver? && event.msg.Some? && event.msg.value.end)
  }

  lemma InsideTransaction(d: Data, event: Event)
    requires d.mode == TransactionMode && (d.inTxn || Begins(event))
    ensures var o := Happen(d, event);
            && o.data.mode == TransactionMode
            && (d.held.Some? && o.sent.Some? ==> o.sent == d.held)
            && (!Finishes(event) ==>
                  o.data.inTxn && (d.held.Some? ==> o.data.held == d.held) && (o.sent.Some? ==> o.data.held == o.sent))
  {
  }

  lemma QueryKeepsMode(d: Data, m: Message, e: Surroundings)
    ensures QueryPart(d, m, e).data.mode == d.mode
  {
  }

  lemma ModeKept(d: Data, event: Event)
    ensures Happen(d, event).data.mode == d.mode
  {
    hide QueryPart;
    if event.Deliver? && event.msg.Some? {
      QueryKeepsMode(if event.msg.value.begin then d.(inTxn := true) else d, event.msg.value, event.env);
    }
  }

  lemma {:induction false} ModeStays(mode: Mode, events: seq<Event>)
    ensures StateAfter(mode, events).mode == mode
  {
    if events != [] {
      hide Happen;
      ModeStays(mode, events[..|events| - 1]);
      ModeKept(StateAfter(mode, events[..|events| - 1]), events[|events| - 1]);
    }
  }

  lemma {:induction false} OneConnectionFrom(events: seq<Event>, b: nat, i: nat, j: nat)
    requires b <= i < j < |events| && Begins(events[b])
    requires forall k :: b <= k < j ==> !Finishes(events[k])
    requires OutcomeAt(TransactionMode, events, i).sent.Some?
    ensures var d := StateAfter(TransactionMode, events[..j]);
            d.mode == TransactionMode && d.inTxn && d.held == OutcomeAt(TransactionMode, events, i).sent
    decreases j
  {
    hide Happen, Begins, Finishes;
    StateStep(TransactionMode, events, j - 1);
    if i < j - 1 {
      OneConnectionFrom(events, b, i, j - 1);
    } else {
      Within(events, b, j - 1);
    }
    InsideTransaction(StateAfter(TransactionMode, events[..j - 1]), events[j - 1]);
  }

  lemma {:induction false} Within(events: seq<Event>, b: nat, i: nat)
    requires b <= i < |events| && Begins(events[b])
    requires forall k :: b <= k < i ==> !Finishes(events[k])
    ensures var d := StateAfter(TransactionMode, events[..i]); d.mode == TransactionMode && (d.inTxn || Begins(events[i]))
    decreases i
  {
    hide Happen, Begins, Finishes;
    ModeStays(TransactionMode, events[..i]);
    if b < i {
      Within(events, b, i - 1);
      StateStep(TransactionMode, events, i - 1);
      InsideTransaction(StateAfter(TransactionMode, events[..i - 1]), events[i - 1]);
    }
  }

  /** Everything forwarded from a begin up to and including its end goes to one connection, errors or not. */
  lemma TransactionAffinity(events: seq<Event>, b: nat, i: nat, j: nat)
    requires b <= i <= j < |events| && Begins(events[b])
    requires forall k :: b <= k < j ==> !Finishes(events[k])
    requires OutcomeAt(TransactionMode, events, i).sent.Some? && OutcomeAt(TransactionMode, events, j).sent.Some?
    ensures OutcomeAt(TransactionMode, events, i).sent == OutcomeAt(TransactionMode, events, j).sent
  {
    hide Happen, Begins, Finishes;
    if i < j {
      OneConnectionFrom(events, b, i, j);
      InsideTransaction(StateAfter(TransactionMode, events[..j]), events[j]);
    }
  }

  // ----- session mode -----

  lemma SessionKeeps(d: Data, event: Event)
    requires d.mode == SessionMode && d.held.Some? && event.Deliver?
    ensures var o := Happen(d, event); o.data.held == d.held && (o.sent.Some? ==> o.sent == d.held)
  {
  }

  /** In session mode the connection once held takes every message until the client disconnects, errors or not. */
  lemma {:induction false} SessionAffinity(events: seq<Event>, i: nat, j: nat)
    requires i <= j < |events| && StateAfter(SessionMode, events[..i]).held.Some?
    requires forall k :: i <= k <= j ==> events[k].Deliver?
    ensures var held := StateAfter(SessionMode, events[..i]).held;
            && StateAfter(SessionMode, events[..j]).held == held
            && (OutcomeAt(SessionMode, events, j).sent.Some? ==> OutcomeAt(SessionMode, events, j).sent == held)
    decreases j
  {
    hide Happen;
    ModeStays(SessionMode, events[..j]);
    if i < j {
      SessionAffinity(events, i, j - 1);
      StateStep(SessionMode, events, j - 1);
      ModeStays(SessionMode, events[..j - 1]);
      SessionKeeps(StateAfter(SessionMode, events[..j - 1]), events[j - 1]);
    }
    SessionKeeps(StateAfter(SessionMode, events[..j]), events[j]);
  }

  // ----- what a message comes to -----

  /** The query part of HandleMessage is reached. */
  predicate Queries(d: Data, msg: Option<Message>, e: Surroundings) {
    msg.Some? && e.codec && msg.value.query && !(msg.value.begin && d.mode == StatementMode)
  }

  /** The connection the message would go to: the one held, except in statement mode, or else the pool's. */
  function Target(d: Data, e: Surroundings): Option<Conn> {
    if d.mode != StatementMode && d.held.Some? then d.held
    else if e.answer.Granted? then e.answer.conn else None
  }

  /** What is written where, what fails and how, and what is counted, for every mode and message. */
  lemma ForwardedExactly(d: Data, msg: Option<Message>, e: Surroundings)
    ensures var o := Handle(d, msg, e);
            && o.sent == (if Queries(d, msg, e) then Target(d, e) else None)
            && o.data.queries == d.queries + (if Queries(d, msg, e) then 1 else 0)
            && o.data.mode == d.mode
            && o.failure ==
               if msg.None? then None
               else if !e.codec then Some(NoCodec)
               else if msg.value.begin && d.mode == StatementMode then Some(NoTransactions)
               else if !msg.value.query then None
               else if (d.mode == StatementMode || d.held.None?) && e.answer.Refused? then Some(AcquireFailed)
               else if Target(d, e).None? then Some(NoConnection)
               else if !e.writeOk then Some(WriteFailed)
               else None
  {
  }

  /** The connection a message gets from the pool, if it gets one. */
  function Got(d: Data, msg: Option<Message>, e: Surroundings): seq<Call> {
    if Queries(d, msg, e) && (d.mode == StatementMode || d.held.None?) && e.answer.Granted? && e.answer.conn.Some?
    then [Acquired(e.answer.conn.value)] else []
  }

  function GivenBack(conn: Option<Conn>): seq<Call> {
    if conn.Some? then [Released(conn.value)] else []
  }

  /** Outside a transaction a query gives back the connection it got, and one left over if autocommit is due. */
  predicate Autocommits(d: Data, m: Message) {
    m.query && !d.inTxn && !m.begin && (d.held.None? || d.autoCommit)
  }

  /**
   * In transaction mode a message that is handled gives its connection back when it ends the transaction
   * or autocommits; otherwise, and on an error, the connection stays held.
   */
  lemma TransactionModeOutcome(d: Data, msg: Option<Message>, e: Surroundings)
    requires d.mode == TransactionMode && msg.Some? && e.codec
    ensures var o, m := Handle(d, msg, e), msg.value;
            var conn := if m.query && !(d.held.None? && e.answer.Refused?) then Target(d, e) else d.held;
            var ends := o.failure.None? && m.end;
            && o.data.inTxn == ((d.inTxn || m.begin) && !ends)
            && o.data.txns == d.txns + (if ends then 1 else 0)
            && (o.failure.None? && (m.end || Autocommits(d, m)) ==>
                  o.data.held == None && o.data.calls == d.calls + Got(d, msg, e) + GivenBack(conn))
            && (!(o.failure.None? && (m.end || Autocommits(d, m))) ==>
                  o.data.held == conn && o.data.calls == d.calls + Got(d, msg, e))
  {
    hide QueryPart;
    QueryPartOutcome(if msg.value.begin then d.(inTxn := true) else d, msg.value, e);
  }

  lemma QueryPartOutcome(d: Data, m: Message, e: Surroundings)
    requires d.mode == TransactionMode && e.codec && (m.begin ==> d.inTxn)
    ensures var o := QueryPart(d, m, e);
            var conn := if m.query && !(d.held.None? && e.answer.Refused?) then Target(d, e) else d.held;
            var ends := o.failure.None? && m.end;
            && o.data.inTxn == (d.inTxn && !ends)
            && o.data.txns == d.txns + (if ends then 1 else 0)
            && (o.failure.None? && (m.end || Autocommits(d, m)) ==>
                  o.data.held == None && o.data.calls == d.calls + Got(d, Some(m), e) + GivenBack(conn))
            && (!(o.failure.None? && (m.end || Autocommits(d, m))) ==>
                  o.data.held == conn && o.data.calls == d.calls + Got(d, Some(m), e))
  {
    assert d.calls + [] == d.calls;
  }

  /** When autocommit is due after a message in transaction mode. */
  lemma AutocommitFlag(d: Data, msg: Option<Message>, e: Surroundings)
    requires d.mode == TransactionMode && msg.Some? && e.codec
    ensures var o, m := Handle(d, msg, e), msg.value;
            o.data.autoCommit ==
              if o.failure.None? && Autocommits(d, m) then false
              else if m.query && !d.inTxn && !m.begin && d.held.None? && e.answer.Granted? then true
              else d.autoCommit
  {
  }

  /**
   * In statement mode every query that gets a connection writes to it and, if the write succeeds, gives
   * it back at once; a connection already held is not given back.
   */
  lemma StatementModeOutcome(d: Data, msg: Option<Message>, e: Surroundings)
    requires d.mode == StatementMode
    ensures var o := Handle(d, msg, e);
            && o.data.txns == d.txns
            && (!Queries(d, msg, e) || e.answer.Refused? ==> o.data.held == d.held && o.data.calls == d.calls)
            && (Queries(d, msg, e) && e.answer.Granted? ==>
                  && o.data.held == (if e.writeOk then None else e.answer.conn)
                  && o.data.calls == d.calls + Got(d, msg, e) + (if e.writeOk then GivenBack(e.answer.conn) else []))
  {
    assert d.calls + [] == d.calls && d.calls + [] + [] == d.calls;
  }

  /** In session mode what is held stays held, and nothing is given back. */
  lemma SessionModeOutcome(d: Data, msg: Option<Message>, e: Surroundings)
    requires d.mode == SessionMode
    ensures var o := Handle(d, msg, e);
            && o.data.held == (if Queries(d, msg, e) then Target(d, e) else d.held)
            && o.data.calls == d.calls + Got(d, msg, e) && o.data.txns == d.txns
  {
    assert d.calls + [] == d.calls;
  }

  /**
   * A transaction end that is handled without failure leaves the transaction in every mode; in
   * transaction mode nothing is held afterwards, the transaction is counted, and the connection held
   * before or got for this message is given back last.
   */
  lemma EndEnds(d: Data, msg: Option<Message>, e: Surroundings)
    requires msg.Some? && msg.value.end && e.codec && Handle(d, msg, e).failure == None
    ensures var d' := Handle(d, msg, e).data;
            && !d'.inTxn
            && (d.mode == TransactionMode ==> d'.held == None && d'.txns == d.txns + 1)
            && (d.mode == TransactionMode && d.held.Some? ==> d'.calls == d.calls + [Released(d.held.value)])
            && (d.mode == TransactionMode && d.held.None? && msg.value.query ==>
                  d'.calls == d.calls + [Acquired(e.answer.conn.value)] + [Released(e.answer.conn.value)])
  {
  }

  /** Connecting takes a connection in session mode only; disconnecting gives back whatever is held. */
  lemma ConnectOutcome(d: Data, answer: Answer)
    ensures var o, gone := Happen(d, Event.Connect(answer)), Happen(d, Disconnect);
            && (d.mode != SessionMode ==> o == Outcome(d, None, None))
            && (d.mode == SessionMode && answer.Refused? ==> o == Outcome(d, None, Some(AcquireFailed)))
            && (d.mode == SessionMode && answer.Granted? ==>
                  o.data.held == answer.conn && o.failure == None
                  && o.data.calls == d.calls + (if answer.conn.Some? then [Acquired(answer.conn.value)] else []))
            && gone.data.held == None && gone.data.calls == d.calls + GivenBack(d.held) && gone.data.inTxn == d.inTxn
  {
    assert d.calls + [] == d.calls;
  }

  // ----- in a transaction, exactly -----

  /** The i-th event is a transaction end that was handled without failure. */
  predicate Ended(mode: Mode, events: seq<Event>, i: nat)
    requires i < |events|
  {
    && events[i].Deliver? && events[i].msg.Some? && events[i].env.codec && events[i].msg.value.end
    && OutcomeAt(mode, events, i).failure == None
  }

  /** The event at b began a transaction that no event since then has ended. */
  ghost predicate OpenSince(mode: Mode, events: seq<Event>, b: nat) {
    b < |events| && Begins(events[b]) && forall k :: b <= k < |events| ==> !Ended(mode, events, k)
  }

  lemma InTxnStep(d: Data, event: Event)
    ensures var o := Happen(d, event);
            var ended := event.Deliver? && event.msg.Some? && event.env.codec && event.msg.value.end && o.failure == None;
            o.data.inTxn == (!ended && (Begins(event) || d.inTxn))
  {
    hide QueryPart;
    if event.Deliver? && event.msg.Some? {
      QueryPartInTxn(if event.msg.value.begin then d.(inTxn := true) else d, event.msg.value, event.env);
    }
  }

  lemma QueryPartInTxn(d: Data, m: Message, e: Surroundings)
    ensures var o := QueryPart(d, m, e); o.data.inTxn == (d.inTxn && !(m.end && o.failure == None))
  {
  }

  lemma EndedBefore(mode: Mode, events: seq<Event>, n: nat, k: nat)
    requires n == |events| - 1 && k < n
    ensures Ended(mode, events[..n], k) == Ended(mode, events, k)
  {
    assert events[..n][..k] == events[..k] && events[..n][k] == events[k];
  }

  /** In every mode and over any run, the session is in a transaction exactly when a begin was handled that no end handled since has closed. */
  lemma {:induction false} InTransactionExactly(mode: Mode, events: seq<Event>)
    ensures StateAfter(mode, events).inTxn <==> exists b :: 0 <= b < |events| && OpenSince(mode, events, b)
  {
    hide Happen, Begins;
    if events != [] {
      var n := |events| - 1;
      var before := events[..n];
      InTransactionExactly(mode, before);
      InTxnStep(StateAfter(mode, before), events[n]);
      forall k | 0 <= k < n ensures Ended(mode, before, k) == Ended(mode, events, k) {
        EndedBefore(mode, events, n, k);
      }
      if StateAfter(mode, events).inTxn {
        assert !Ended(mode, events, n);
        if Begins(events[n]) {
          assert OpenSince(mode, events, n);
        } else {
          var b: nat :| b < |before| && OpenSince(mode, before, b);
          assert OpenSince(mode, events, b);
        }
      }
      if b: nat :| b < |events| && OpenSince(mode, events, b) {
        assert !Ended(mode, events, n);
        if b < n {
          assert before[b] == events[b] && OpenSince(mode, before, b);
        }
      }
    }
  }

  // ----- between messages, over runs -----

  /** The event leaves a connection held where none should be. */
  predicate Strands(d: Data, event: Event) {
    event.Deliver? && CannotWrite(event.msg, event.env) && !(d.mode == TransactionMode && d.inTxn)
  }

  ghost predicate NothingStray(d: Data) {
    (d.mode == TransactionMode ==> HeldOnlyInTransaction(d)) && (d.mode == StatementMode ==> d.held.None?)
  }

  lemma StepBetweenMessages(d: Data, event: Event)
    requires d.mode != SessionMode && NothingStray(d)
    ensures NothingStray(Happen(d, event).data) <==> !Strands(d, event)
  {
    hide Handle;
    ModeKept(d, event);
    if event.Deliver? {
      if d.mode == TransactionMode {
        TransactionModeBetweenMessages(d, event.msg, event.env);
      } else {
        StatementModeBetweenMessages(d, event.msg, event.env);
      }
    }
  }

  /**
   * Over any run in which every autocommit query that gets a connection can be written, a connection
   * is held only inside a transaction, and never in statement mode; the first one that cannot be
   * written breaks this.
   */
  lemma {:induction false} HeldBetweenMessages(mode: Mode, events: seq<Event>)
    requires mode != SessionMode
    requires forall i :: 0 <= i < |events| - 1 ==> !Strands(StateAfter(mode, events[..i]), events[i])
    ensures NothingStray(StateAfter(mode, events)) <==>
            (events == [] || !Strands(StateAfter(mode, events[..|events| - 1]), events[|events| - 1]))
  {
    if events != [] {
      hide Happen, Strands, NothingStray;
      var n := |events| - 1;
      var before := events[..n];
      forall i | 0 <= i < |before| ensures !Strands(StateAfter(mode, before[..i]), before[i]) {
        assert before[..i] == events[..i];
        assert !Strands(StateAfter(mode, events[..i]), events[i]);
      }
      HeldBetweenMessages(mode, before);
      ModeStays(mode, before);
      StepBetweenMessages(StateAfter(mode, before), events[n]);
    } else {
      NothingHeldAtFirst(mode);
    }
  }

  lemma NothingHeldAtFirst(mode: Mode)
    ensures NothingStray(StateAfter(mode, []))
  {
  }

  // ----- nothing is lost -----

  /** The connections got from the pool and not given back. */
  function Outstanding(calls: seq<Call>): multiset<Conn> {
    if calls == [] then multiset{}
    else
      var before, last := Outstanding(calls[..|calls| - 1]), calls[|calls| - 1];
      if last.Acquired? then before + multiset{last.conn} else before - multiset{last.conn}
  }

  lemma OutstandingNext(calls: seq<Call>, call: Call)
    ensures Outstanding(calls + [call]) ==
            if call.Acquired? then Outstanding(calls) + multiset{call.conn} else Outstanding(calls) - multiset{call.conn}
  {
    assert (calls + [call])[..|calls|] == calls;
  }

  function Holding(held: Option<Conn>): multiset<Conn> {
    if held.Some? then multiset{held.value} else multiset{}
  }

  /** A session in statement mode that already holds a connection takes another over it. */
  predicate Overwrites(d: Data, event: Event) {
    match event
    case Connect(answer) => d.mode == SessionMode && d.held.Some? && answer.Granted?
    case Deliver(msg, env) =>
      d.mode == StatementMode && d.held.Some? && msg.Some? && env.codec && !msg.value.begin && msg.value.query && env.answer.Granted?
    case Disconnect => false
  }

  /** Lost is what the session has got and neither holds nor gave back. */
  ghost predicate Accounts(d: Data, lost: multiset<Conn>) {
    Outstanding(d.calls) == lost + Holding(d.held)
  }

  lemma ReleaseAccounts(d: Data, lost: multiset<Conn>)
    requires Accounts(d, lost)
    ensures Accounts(ReleaseHeld(d), lost)
  {
    if d.held.Some? {
      OutstandingNext(d.calls, Released(d.held.value));
    }
  }

  lemma TakeAccounts(d: Data, conn: Option<Conn>, lost: multiset<Conn>)
    requires Accounts(d, lost)
    ensures Accounts(Take(d, conn), lost + Holding(d.held))
  {
    if conn.Some? {
      OutstandingNext(d.calls, Acquired(conn.value));
    }
  }

  /** Only held and calls matter to the account. */
  lemma SameAccount(d: Data, d': Data, lost: multiset<Conn>)
    requires Accounts(d, lost) && d'.held == d.held && d'.calls == d.calls
    ensures Accounts(d', lost)
  {
  }

  lemma EndAccounts(d: Data, m: Message, sent: Option<Conn>, lost: multiset<Conn>)
    requires Accounts(d, lost)
    ensures Accounts(EndPart(d, m, sent).data, lost)
  {
    hide Accounts;
    var d1 := d.(inTxn := false);
    SameAccount(d, d1, lost);
    ReleaseAccounts(d1, lost);
    SameAccount(ReleaseHeld(d1), ReleaseHeld(d1).(txns := d.txns + 1), lost);
  }

  lemma CompleteAccounts(d: Data, lost: multiset<Conn>)
    requires Accounts(d, lost)
    ensures Accounts(OnQueryComplete(d), lost)
  {
    hide Accounts;
    ReleaseAccounts(d, lost);
    SameAccount(ReleaseHeld(d), ReleaseHeld(d).(autoCommit := false), lost);
  }

  lemma OnQueryAccounts(d: Data, begin: bool, answer: Answer, lost: multiset<Conn>)
    requires Accounts(d, lost)
    ensures Accounts(OnQuery(d, begin, answer).0,
                     if d.mode == StatementMode && d.held.Some? && answer.Granted? then lost + Holding(d.held) else lost)
  {
    if answer.Granted? {
      TakeAccounts(d, answer.conn, lost);
    }
  }

  lemma QueryAccounts(d: Data, m: Message, e: Surroundings, lost: multiset<Conn>)
    requires Accounts(d, lost)
    ensures Accounts(QueryPart(d, m, e).data,
                     if m.query && d.mode == StatementMode && d.held.Some? && e.answer.Granted? then lost + Holding(d.held) else lost)
  {
    hide Accounts, EndPart, OnQueryComplete, OnQuery;
    if !m.query {
      EndAccounts(d, m, None, lost);
    } else {
      var d0 := d.(queries := d.queries + 1);
      SameAccount(d, d0, lost);
      OnQueryAccounts(d0, m.begin, e.answer, lost);
      var (d1, got) := OnQuery(d0, m.begin, e.answer);
      var lost1 := if d.mode == StatementMode && d.held.Some? && e.answer.Granted? then lost + Holding(d.held) else lost;
      CompleteAccounts(d1, lost1);
      if got.Granted? {
        EndAccounts(OnQueryComplete(d1), m, got.conn, lost1);
      }
    }
  }

  /** A step loses the held connection when it overwrites it, and otherwise nothing. */
  lemma StepAccounts(d: Data, event: Event, lost: multiset<Conn>)
    requires Accounts(d, lost)
    ensures Accounts(Happen(d, event).data, if Overwrites(d, event) then lost + Holding(d.held) else lost)
  {
    hide Accounts, QueryPart;
    match event
    case Connect(answer) =>
      if answer.Granted? {
        TakeAccounts(d, answer.conn, lost);
        assert d.held.None? ==> lost + Holding(d.held) == lost;
      }
    case Deliver(msg, env) =>
      if msg.Some? {
        var d1 := if msg.value.begin then d.(inTxn := true) else d;
        SameAccount(d, d1, lost);
        QueryAccounts(d1, msg.value, env, lost);
      }
    case Disconnect => ReleaseAccounts(d, lost);
  }

  /** What a run has lost: every connection that was held when an acquisition overwrote it. */
  function Lost(mode: Mode, events: seq<Event>): multiset<Conn> {
    if events == [] then multiset{}
    else
      var n := |events| - 1;
      var d := StateAfter(mode, events[..n]);
      if Overwrites(d, events[n]) then Lost(mode, events[..n]) + Holding(d.held) else Lost(mode, events[..n])
  }

  /** Over any run, errors included: what was got is what was given back, is held, or was overwritten. */
  lemma {:induction false} ConnectionsConserved(mode: Mode, events: seq<Event>)
    ensures var d := StateAfter(mode, events); Outstanding(d.calls) == Lost(mode, events) + Holding(d.held)
  {
    if events == [] {
    } else {
      hide Happen, Overwrites;
      var n := |events| - 1;
      ConnectionsConserved(mode, events[..n]);
      StepAccounts(StateAfter(mode, events[..n]), events[n], Lost(mode, events[..n]));
    }
  }

  lemma {:induction false} LostNothing(mode: Mode, events: seq<Event>)
    ensures Lost(mode, events) == multiset{} <==>
            forall i :: 0 <= i < |events| ==> !Overwrites(StateAfter(mode, events[..i]), events[i])
  {
    hide StateAfter;
    if events != [] {
      var n := |events| - 1;
      var before := events[..n];
      LostNothing(mode, before);
      assert forall i :: 0 <= i < n ==> before[..i] == events[..i] && before[i] == events[i];
      HoldingSomething(StateAfter(mode, before), events[n]);
      if forall i :: 0 <= i < n ==> !Overwrites(StateAfter(mode, before[..i]), before[i]) {
        assert Lost(mode, before) == multiset{};
      }
    }
  }

  lemma HoldingSomething(d: Data, event: Event)
    ensures Overwrites(d, event) ==> Holding(d.held) != multiset{}
  {
    if Overwrites(d, event) {
      assert d.held.value in Holding(d.held);
    }
  }

  /** In transaction mode nothing is lost: after a disconnect every connection got has been given back. */
  lemma TransactionModeLosesNothing(events: seq<Event>)
    ensures Outstanding(StateAfter(TransactionMode, events + [Disconnect]).calls) == multiset{}
  {
    var all := events + [Disconnect];
    assert all[..|events|] == events;
    ConnectionsConserved(TransactionMode, all);
    forall i | 0 <= i < |all| ensures !Overwrites(StateAfter(TransactionMode, all[..i]), all[i]) {
      ModeStays(TransactionMode, all[..i]);
    }
    LostNothing(TransactionMode, all);
  }

  lemma Then(mode: Mode, events: seq<Event>, event: Event)
    ensures StateAfter(mode, events + [event]) == Happen(StateAfter(mode, events), event).data
    ensures Lost(mode, events + [event]) ==
            if Overwrites(StateAfter(mode, events), event) then Lost(mode, events) + Holding(StateAfter(mode, events).held)
            else Lost(mode, events)
  {
    hide Happen, Overwrites;
    assert (events + [event])[..|events|] == events;
  }

  /** In statement mode one failed write followed by another query loses a connection for good. */
  lemma StatementModeLoses(x: Conn, y: Conn)
    ensures var query := Some(Message(false, true, false));
            var failed := Deliver(query, Surroundings(true, Granted(Some(x)), false));
            var fine := Deliver(query, Surroundings(true, Granted(Some(y)), true));
            Outstanding(StateAfter(StatementMode, [] + [failed] + [fine] + [Disconnect]).calls) == multiset{x}
  {
    hide StateAfter, Lost, Outstanding;
    var query := Some(Message(false, true, false));
    var failed := Deliver(query, Surroundings(true, Granted(Some(x)), false));
    var fine := Deliver(query, Surroundings(true, Granted(Some(y)), true));
    ConnectionsConserved(StatementMode, [] + [failed] + [fine] + [Disconnect]);
    Then(StatementMode, [], failed);
    Then(StatementMode, [] + [failed], fine);
    Then(StatementMode, [] + [failed] + [fine], Disconnect);
    LostAtFirst(StatementMode);
  }

  lemma LostAtFirst(mode: Mode)
    ensures StateAfter(mode, []) == Fresh(mode) && Lost(mode, []) == multiset{}
  {
  }

  // ----- the session object -----

  class Session {
    const mode: Mode
    var serverConn: Option<Conn>
    var inTxn: bool
    var autoCommit: bool
    var queryCount: nat
    var txnCount: nat
    ghost var calls: seq<Call>

    ghost function Value(): Data
      reads this
    {
      Data(mode, serverConn, inTxn, autoCommit, queryCount, txnCount, calls)
    }

    constructor (mode: Mode)
      ensures Value() == Data(mode, None, false, true, 0, 0, []) == Fresh(mode)
    {
      this.mode := mode;
      serverConn := None;
      inTxn := false;
      autoCommit := true;
      queryCount := 0;
      txnCount := 0;
      calls := [];
    }

    method ReleaseNow()
      modifies this
      ensures Value() == ReleaseHeld(old(Value()))
    {
      if serverConn.Some? {
        calls := calls + [Released(serverConn.value)];
        serverConn := None;
      }
    }

    method QueryHook(begin: bool, answer: Answer) returns (r: Answer)
      modifies this
      ensures (Value(), r) == OnQuery(old(Value()), begin, answer)
    {
      if mode != StatementMode && serverConn.Some? {
        return Granted(serverConn);
      }
      if answer.Refused? {
        return Refused;
      }
      serverConn := answer.conn;
      if answer.conn.Some? {
        calls := calls + [Acquired(answer.conn.value)];
      }
      if mode == TransactionMode && !inTxn && !begin {
        autoCommit := true;
      }
      return answer;
    }

    method QueryCompleteHook()
      modifies this
      ensures Value() == OnQueryComplete(old(Value()))
    {
      match mode {
        case SessionMode =>
        case TransactionMode =>
          if !inTxn && autoCommit && serverConn.Some? {
            ReleaseNow();
            autoCommit := false;
          }
        case StatementMode => ReleaseNow();
      }
    }

    method TransactionEndHook()
      modifies this
      ensures Value() == OnTransactionEnd(old(Value()))
    {
      match mode {
        case SessionMode => inTxn := false;
        case TransactionMode =>
          inTxn := false;
          ReleaseNow();
          txnCount := txnCount + 1;
        case StatementMode =>
      }
    }

    /** sent is the connection the message was written to, if it got that far. */
    method HandleMessage(msg: Option<Message>, e: Surroundings) returns (sent: Option<Conn>, failure: Option<Failure>)
      modifies this
      ensures Outcome(Value(), sent, failure) == Handle(old(Value()), msg, e)
    {
      hide OnQuery, OnQueryComplete, OnTransactionEnd;
      sent, failure := None, None;
      if msg.None? {
        return;
      }
      if !e.codec {
        failure := Some(NoCodec);
        return;
      }
      var m := msg.value;
      if m.begin {
        inTxn := true;
        if mode == StatementMode {
          failure := Some(NoTransactions);
          return;
        }
      }
      if m.query {
        queryCount := queryCount + 1;
        var got := QueryHook(m.begin, e.answer);
        if got.Refused? {
          failure := Some(AcquireFailed);
          return;
        }
        if got.conn.None? {
          failure := Some(NoConnection);
          return;
        }
        sent := got.conn;
        if !e.writeOk {
          failure := Some(WriteFailed);
          return;
        }
        QueryCompleteHook();
      }
      if m.end {
        inTxn := false;
        TransactionEndHook();
      }
    }
  }
}
