/**
 * PostgreSQL startup messages (section 55.7 of the PostgreSQL 16 documentation): the printer, which
 * walks its parameter map in any order, and the parser, over a stream of bytes.
 */
module StartupMessages {
  import opened Bytes

  type Text = seq<Byte>
  type Parameters = map<Text, Text>

  const MIN_LENGTH: nat := 8
  const MAX_LENGTH: nat := 10000

  datatype Outcome =
    | Message(version: nat, parameters: Parameters, rest: seq<Byte>)
    | Truncated
    | BadLength(length: nat)

  /** order lists the keys of m, each once: one way Go may walk the map. */
  ghost predicate Walks(order: seq<Text>, m: Parameters) {
    && (forall k :: k in order <==> k in m)
    && (forall i, j :: 0 <= i < j < |order| ==> order[i] != order[j])
  }

  ghost predicate Within(order: seq<Text>, m: Parameters) {
    forall k :: k in order ==> k in m
  }

  // ----- printing -----

  function Pair(k: Text, v: Text): seq<Byte> {
    k + [0] + v + [0]
  }

  ghost function Pairs(m: Parameters, order: seq<Text>): seq<Byte>
    requires Within(order, m)
  {
    if order == [] then []
    else Pairs(m, order[..|order| - 1]) + Pair(order[|order| - 1], m[order[|order| - 1]])
  }

  ghost function PairsSize(m: Parameters, order: seq<Text>): nat
    requires Within(order, m)
  {
    if order == [] then 0
    else PairsSize(m, order[..|order| - 1]) + |order[|order| - 1]| + 1 + |m[order[|order| - 1]]| + 1
  }

  /** int32 of the length, then version, pairs and a final NUL. */
  ghost function Print(version: nat, m: Parameters, order: seq<Text>): seq<Byte>
    requires Within(order, m)
  {
    PutUint32(4 + PairsSize(m, order) + 1 + 4) + (PutUint32(version) + Pairs(m, order) + [0])
  }

  lemma {:induction false} PairsLength(m: Parameters, order: seq<Text>)
    requires Within(order, m)
    ensures |Pairs(m, order)| == PairsSize(m, order)
  {
    if order != [] {
      PairsLength(m, order[..|order| - 1]);
    }
  }

  // ----- parsing -----

  /** The first NUL at or after pos, or the end. */
  function NextNul(buf: seq<Byte>, pos: nat): (j: nat)
    requires pos <= |buf|
    ensures pos <= j <= |buf|
    ensures forall i :: pos <= i < j ==> buf[i] != 0
    ensures j < |buf| ==> buf[j] == 0
    decreases |buf| - pos
  {
    if pos == |buf| || buf[pos] == 0 then pos else NextNul(buf, pos + 1)
  }

  function Store(m: Parameters, k: Text, v: Text): Parameters {
    if k == [] then m else m[k := v]
  }

  function ParsePairs(buf: seq<Byte>, pos: nat, m: Parameters): Parameters
    requires pos <= |buf|
    decreases |buf| - pos
  {
    if pos + 1 >= |buf| then m
    else
      var a := NextNul(buf, pos);
      if a >= |buf| then m
      else
        var b := NextNul(buf, a + 1);
        if b >= |buf| then m else ParsePairs(buf, b + 1, Store(m, buf[pos..a], buf[a + 1..b]))
  }

  function Parse(stream: seq<Byte>): Outcome {
    if |stream| < 4 then Truncated
    else
      var length := Uint32(stream);
      if length < MIN_LENGTH || length > MAX_LENGTH then BadLength(length)
      else if |stream| < length then Truncated
      else
        var buf := stream[4..length];
        Message(Uint32(buf), ParsePairs(buf, 4, map[]), stream[length..])
  }

  // ----- every stream -----

  /**
   * Which streams give a message and which give which error: fewer than four bytes, or fewer than an
   * admissible length announces, are truncated; a length below 8 or above 10000 is bad; anything else
   * is a message.  A message of length 8 has no parameters.
   */
  lemma ParseExactly(stream: seq<Byte>)
    ensures |stream| < 4 ==> Parse(stream) == Truncated
    ensures |stream| >= 4 ==>
              var length := Uint32(stream);
              && (length < 8 || length > 10000 ==> Parse(stream) == BadLength(length))
              && (8 <= length <= 10000 && |stream| < length ==> Parse(stream) == Truncated)
              && (8 <= length <= 10000 && |stream| >= length ==>
                    && Parse(stream).Message? && Parse(stream).version == Uint32(stream[4..8]) && Parse(stream).rest == stream[length..]
                    && Parse(stream).parameters == StoreAll(map[], Fields(stream[8..length]))
                    && (length == 8 ==> Parse(stream).parameters == map[]))
  {
    if |stream| >= 4 && 8 <= Uint32(stream) <= 10000 && |stream| >= Uint32(stream) {
      var length := Uint32(stream);
      var buf := stream[4..length];
      ParseIsFields(buf, 4, map[]);
      assert buf[4..] == stream[8..length];
      assert Uint32(buf) == Uint32(stream[4..8]);
    }
  }

  /** The NUL-terminated fields of b; what follows the last NUL is no field. */
  function Fields(b: seq<Byte>): seq<Text>
    decreases |b|
  {
    if 0 !in b then []
    else
      var i := FirstNul(b);
      [b[..i]] + Fields(b[i + 1..])
  }

  function FirstNul(b: seq<Byte>): (i: nat)
    requires 0 in b
    ensures i < |b| && b[i] == 0 && forall j :: 0 <= j < i ==> b[j] != 0
  {
    if b[0] == 0 then 0 else 1 + FirstNul(b[1..])
  }

  /** Fields taken in pairs; a key without a value is dropped, and so is a pair with an empty key. */
  function StoreAll(m: Parameters, fields: seq<Text>): Parameters
    decreases |fields|
  {
    if |fields| < 2 then m
    else StoreAll(if fields[0] == [] then m else m[fields[0] := fields[1]], fields[2..])
  }

  lemma NextField(buf: seq<Byte>, pos: nat)
    requires pos <= |buf|
    ensures 0 in buf[pos..] <==> NextNul(buf, pos) < |buf|
    ensures 0 in buf[pos..] ==> FirstNul(buf[pos..]) == NextNul(buf, pos) - pos
    ensures NextNul(buf, pos) == |buf| ==> Fields(buf[pos..]) == []
    ensures NextNul(buf, pos) < |buf| ==>
              var a := NextNul(buf, pos); Fields(buf[pos..]) == [buf[pos..a]] + Fields(buf[a + 1..])
  {
    hide Fields, NextNul;
    var a, b := NextNul(buf, pos), buf[pos..];
    assert forall j :: 0 <= j < |b| ==> b[j] == buf[pos + j];
    if a < |buf| {
      assert b[a - pos] == 0;
      FieldsNext(b, a - pos);
      Shifted(buf, pos, a);
    } else {
      NoFields(b);
    }
  }

  lemma Shifted(buf: seq<Byte>, pos: nat, a: nat)
    requires pos <= a < |buf|
    ensures buf[pos..][..a - pos] == buf[pos..a] && buf[pos..][a - pos + 1..] == buf[a + 1..]
  {
  }

  lemma FieldsNext(b: seq<Byte>, i: nat)
    requires i < |b| && b[i] == 0 && forall j :: 0 <= j < i ==> b[j] != 0
    ensures FirstNul(b) == i && Fields(b) == [b[..i]] + Fields(b[i + 1..])
  {
  }

  lemma NoFields(b: seq<Byte>)
    requires 0 !in b
    ensures Fields(b) == []
  {
  }

  /** The position-advancing loop is the fields of the rest, taken in pairs, for every byte sequence. */
  lemma {:induction false} ParseIsFields(buf: seq<Byte>, pos: nat, m: Parameters)
    requires pos <= |buf|
    ensures ParsePairs(buf, pos, m) == StoreAll(m, Fields(buf[pos..]))
    decreases |buf| - pos
  {
    hide NextNul, Fields, FirstNul, ParsePairs, StoreAll, Store;
    NextField(buf, pos);
    var a := NextNul(buf, pos);
    if a >= |buf| {
      ParseStops(buf, pos, m);
      FewFields(m, Fields(buf[pos..]));
    } else {
      NextField(buf, a + 1);
      var b := NextNul(buf, a + 1);
      if b >= |buf| {
        ParseStops(buf, pos, m);
        FewFields(m, Fields(buf[pos..]));
      } else {
        ParseNext(buf, pos, m);
        ParseIsFields(buf, b + 1, Store(m, buf[pos..a], buf[a + 1..b]));
        TwoFields(m, buf[pos..a], buf[a + 1..b], Fields(buf[b + 1..]));
      }
    }
  }

  lemma FewFields(m: Parameters, fields: seq<Text>)
    requires |fields| < 2
    ensures StoreAll(m, fields) == m
  {
  }

  lemma TwoFields(m: Parameters, k: Text, v: Text, fields: seq<Text>)
    ensures StoreAll(m, [k] + ([v] + fields)) == StoreAll(Store(m, k, v), fields)
  {
    assert ([k] + ([v] + fields))[2..] == fields;
  }

  // ----- what survives a round trip -----

  predicate NulFree(t: Text) {
    forall i :: 0 <= i < |t| ==> t[i] != 0
  }

  predicate Storable(k: Text, v: Text) {
    k != [] && NulFree(k) && NulFree(v)
  }

  ghost predicate WellFormed(m: Parameters) {
    forall k :: k in m ==> Storable(k, m[k])
  }

  lemma NextNulIs(buf: seq<Byte>, pos: nat, t: Text)
    requires pos + |t| < |buf| && buf[pos..pos + |t|] == t && NulFree(t) && buf[pos + |t|] == 0
    ensures NextNul(buf, pos) == pos + |t|
  {
    assert forall i :: pos <= i < pos + |t| ==> buf[i] == t[i - pos];
  }

  lemma PairSlices(buf: seq<Byte>, pos: nat, k: Text, v: Text)
    requires var end := pos + |Pair(k, v)|; end < |buf| && buf[pos..end] == Pair(k, v)
    ensures var a := pos + |k|; var b := a + 1 + |v|;
            buf[pos..a] == k && buf[a] == 0 && buf[a + 1..b] == v && buf[b] == 0
  {
    var pair := Pair(k, v);
    var n := |k|;
    assert forall i :: 0 <= i < |pair| ==> buf[pos + i] == pair[i];
    assert forall i :: 0 <= i < n ==> pair[i] == k[i];
    assert forall i :: 0 <= i < |v| ==> pair[n + 1 + i] == v[i];
  }

  lemma ParseNext(buf: seq<Byte>, pos: nat, m: Parameters)
    requires pos + 1 < |buf| && NextNul(buf, pos) < |buf| && NextNul(buf, NextNul(buf, pos) + 1) < |buf|
    ensures var a := NextNul(buf, pos); var b := NextNul(buf, a + 1);
            ParsePairs(buf, pos, m) == ParsePairs(buf, b + 1, Store(m, buf[pos..a], buf[a + 1..b]))
  {
  }

  /** One printed pair is read as that pair. */
  lemma ReadsPair(buf: seq<Byte>, pos: nat, k: Text, v: Text, m: Parameters)
    requires Storable(k, v)
    requires var end := pos + |Pair(k, v)|; end < |buf| && buf[pos..end] == Pair(k, v)
    ensures ParsePairs(buf, pos, m) == ParsePairs(buf, pos + |Pair(k, v)|, m[k := v])
  {
    hide ParsePairs, NextNul, NulFree;
    PairSlices(buf, pos, k, v);
    NextNulIs(buf, pos, k);
    NextNulIs(buf, pos + |k| + 1, v);
    ParseNext(buf, pos, m);
  }

  ghost function Restrict(m: Parameters, order: seq<Text>): Parameters
    requires Within(order, m)
  {
    if order == [] then map[]
    else Restrict(m, order[..|order| - 1])[order[|order| - 1] := m[order[|order| - 1]]]
  }

  lemma {:induction false} RestrictMeans(m: Parameters, order: seq<Text>)
    requires Within(order, m)
    ensures forall k :: k in Restrict(m, order) <==> k in order
    ensures forall k :: k in order ==> Restrict(m, order)[k] == m[k]
  {
    if order != [] {
      var n := |order| - 1;
      RestrictMeans(m, order[..n]);
      assert order == order[..n] + [order[n]];
    }
  }

  lemma TwoSlices(buf: seq<Byte>, start: nat, a: seq<Byte>, b: seq<Byte>)
    requires start + |a + b| <= |buf| && buf[start..start + |a + b|] == a + b
    ensures buf[start..start + |a|] == a && buf[start + |a|..start + |a + b|] == b
  {
    assert forall i :: 0 <= i < |a + b| ==> buf[start + i] == (a + b)[i];
    assert forall i :: 0 <= i < |a| ==> buf[start + i] == a[i];
    assert forall i :: 0 <= i < |b| ==> buf[start + |a| + i] == (a + b)[|a| + i] == b[i];
  }

  lemma FormedAt(m: Parameters, k: Text)
    requires WellFormed(m) && k in m
    ensures Storable(k, m[k])
  {
  }

  lemma PairsLast(m: Parameters, order: seq<Text>)
    requires Within(order, m) && order != []
    ensures var before, k := order[..|order| - 1], order[|order| - 1];
            && Within(before, m) && k in m
            && Pairs(m, order) == Pairs(m, before) + Pair(k, m[k])
            && PairsSize(m, order) == PairsSize(m, before) + |Pair(k, m[k])|
            && Restrict(m, order) == Restrict(m, before)[k := m[k]]
  {
  }

  lemma ReadsOneMore(buf: seq<Byte>, a: seq<Byte>, k: Text, v: Text, m: Parameters)
    requires Storable(k, v)
    requires var pairs := a + Pair(k, v); 4 + |pairs| < |buf| && buf[4..4 + |pairs|] == pairs
    ensures buf[4..4 + |a|] == a
    ensures ParsePairs(buf, 4 + |a|, m) == ParsePairs(buf, 4 + |a| + |Pair(k, v)|, m[k := v])
  {
    hide ParsePairs, Pair;
    TwoSlices(buf, 4, a, Pair(k, v));
    ReadsPair(buf, 4 + |a|, k, v, m);
  }

  lemma NoPairs(m: Parameters)
    ensures Pairs(m, []) == [] && Restrict(m, []) == map[]
  {
  }

  /** The parser, having read the pairs of the first keys, stands right behind them. */
  lemma {:induction false} ReadsPairs(buf: seq<Byte>, m: Parameters, order: seq<Text>, pairs: seq<Byte>)
    requires Within(order, m) && WellFormed(m) && pairs == Pairs(m, order)
    requires 4 + |pairs| < |buf| && buf[4..4 + |pairs|] == pairs
    ensures ParsePairs(buf, 4, map[]) == ParsePairs(buf, 4 + |pairs|, Restrict(m, order))
    decreases |order|
  {
    hide ParsePairs, WellFormed, Within, Pairs, Restrict, Pair;
    if order == [] {
      NoPairs(m);
    } else {
      var before, k := order[..|order| - 1], order[|order| - 1];
      PairsLast(m, order);
      FormedAt(m, k);
      ReadsOneMore(buf, Pairs(m, before), k, m[k], Restrict(m, before));
      ReadsPairs(buf, m, before, Pairs(m, before));
    }
  }

  lemma WalkRestricts(m: Parameters, order: seq<Text>)
    requires Walks(order, m)
    ensures Restrict(m, order) == m
  {
    RestrictMeans(m, order);
    assert Restrict(m, order).Keys == m.Keys;
  }

  lemma BodyParts(head: seq<Byte>, pairs: seq<Byte>, buf: seq<Byte>)
    requires |head| == 4 && buf == head + pairs + [0]
    ensures buf[..4] == head && buf[4..4 + |pairs|] == pairs && |buf| == 4 + |pairs| + 1
  {
  }

  /** The bytes behind the length field, read back. */
  lemma BodyReadsBack(version: nat, m: Parameters, order: seq<Text>, buf: seq<Byte>)
    requires Walks(order, m) && WellFormed(m) && version < U32
    requires buf == PutUint32(version) + Pairs(m, order) + [0]
    ensures Uint32(buf) == version && ParsePairs(buf, 4, map[]) == m && |buf| == 4 + PairsSize(m, order) + 1
  {
    hide Pairs, PairsSize, PutUint32, Uint32, WellFormed, ParsePairs, Restrict;
    PairsLength(m, order);
    BodyParts(PutUint32(version), Pairs(m, order), buf);
    Uint32At(buf, version);
    ParseStops(buf, 4 + PairsSize(m, order), m);
    ReadsPairs(buf, m, order, Pairs(m, order));
    WalkRestricts(m, order);
  }

  lemma StreamParts(head: seq<Byte>, body: seq<Byte>, rest: seq<Byte>)
    requires |head| == 4
    ensures var stream := head + body + rest;
            stream[..4] == head && stream[4..4 + |body|] == body && stream[4 + |body|..] == rest
  {
  }

  /** Whatever order the printer walks the map in, and whatever follows on the stream, the parser gives the message back. */
  lemma StartupRoundTrip(version: nat, m: Parameters, order: seq<Text>, rest: seq<Byte>)
    requires version < U32 && Walks(order, m)
    requires WellFormed(m) && PairsSize(m, order) + 9 <= MAX_LENGTH
    ensures Parse(Print(version, m, order) + rest) == Message(version, m, rest)
  {
    hide ParsePairs, Pairs, PairsSize, PutUint32, Uint32, WellFormed;
    var body := PutUint32(version) + Pairs(m, order) + [0];
    var length := PairsSize(m, order) + 9;
    BodyReadsBack(version, m, order, body);
    StreamParts(PutUint32(length), body, rest);
    Uint32At(Print(version, m, order) + rest, length);
  }

  // ----- and nothing else survives -----

  lemma SliceNulFree(buf: seq<Byte>, pos: nat)
    requires pos <= |buf|
    ensures NulFree(buf[pos..NextNul(buf, pos)])
  {
    var t := buf[pos..NextNul(buf, pos)];
    assert forall i :: 0 <= i < |t| ==> t[i] == buf[pos + i];
  }

  lemma StoreWellFormed(m: Parameters, buf: seq<Byte>, pos: nat, a: nat)
    requires WellFormed(m) && pos <= |buf| && a == NextNul(buf, pos) && a < |buf|
    ensures WellFormed(Store(m, buf[pos..a], buf[a + 1..NextNul(buf, a + 1)]))
  {
    hide NextNul, NulFree;
    SliceNulFree(buf, pos);
    SliceNulFree(buf, a + 1);
  }

  /** However malformed the bytes, parsed keys are non-empty and keys and values hold no NUL. */
  lemma {:induction false} ParsedWellFormed(buf: seq<Byte>, pos: nat, m: Parameters)
    requires pos <= |buf| && WellFormed(m)
    ensures WellFormed(ParsePairs(buf, pos, m))
    decreases |buf| - pos
  {
    hide WellFormed, NextNul, Store;
    if pos + 1 < |buf| {
      var a := NextNul(buf, pos);
      if a < |buf| {
        var b := NextNul(buf, a + 1);
        if b < |buf| {
          StoreWellFormed(m, buf, pos, a);
          ParsedWellFormed(buf, b + 1, Store(m, buf[pos..a], buf[a + 1..b]));
        }
      }
    }
  }

  function Without(order: seq<Text>, i: nat): seq<Text>
    requires i < |order|
  {
    order[..i] + order[i + 1..]
  }

  lemma {:induction false} SizeWithout(m: Parameters, order: seq<Text>, i: nat)
    requires Within(order, m) && i < |order|
    ensures PairsSize(m, order) == PairsSize(m, Without(order, i)) + |order[i]| + |m[order[i]]| + 2
    decreases |order|
  {
    var n := |order| - 1;
    if i == n {
      assert Without(order, i) == order[..n];
    } else {
      SizeWithout(m, order[..n], i);
      var less := Without(order, i);
      assert less[..|less| - 1] == Without(order[..n], i) && less[|less| - 1] == order[n];
    }
  }

  ghost predicate Distinct(order: seq<Text>) {
    forall i, j :: 0 <= i < j < |order| ==> order[i] != order[j]
  }

  lemma WithoutDistinct(order: seq<Text>, i: nat)
    requires Distinct(order) && i < |order|
    ensures Distinct(Without(order, i)) && forall k :: k in Without(order, i) <==> k in order && k != order[i]
  {
    var less := Without(order, i);
    assert forall x :: 0 <= x < |less| ==> less[x] == order[if x < i then x else x + 1];
    forall k | k in order && k != order[i] ensures k in less {
      var x :| 0 <= x < |order| && order[x] == k;
      assert less[if x < i then x else x - 1] == k;
    }
  }

  lemma {:induction false} SameSize(m: Parameters, m': Parameters, order: seq<Text>)
    requires forall k :: k in order ==> k in m && k in m' && m[k] == m'[k]
    ensures PairsSize(m, order) == PairsSize(m', order)
  {
    if order != [] {
      SameSize(m, m', order[..|order| - 1]);
    }
  }

  /** All the pairs a map can print take at most n bytes. */
  ghost predicate Fits(m: Parameters, n: nat) {
    forall order: seq<Text> :: Distinct(order) && (forall k :: k in order ==> k in m) ==> PairsSize(m, order) <= n
  }

  lemma StoreFits(m: Parameters, k: Text, v: Text, n: nat)
    requires Fits(m, n)
    ensures Fits(Store(m, k, v), n + |k| + |v| + 2)
  {
    var m' := Store(m, k, v);
    forall order: seq<Text> | Distinct(order) && (forall x :: x in order ==> x in m')
      ensures PairsSize(m', order) <= n + |k| + |v| + 2
    {
      if k != [] && k in order {
        var i :| 0 <= i < |order| && order[i] == k;
        SizeWithout(m', order, i);
        WithoutDistinct(order, i);
        SameSize(m, m', Without(order, i));
      } else {
        SameSize(m, m', order);
      }
    }
  }

  lemma FitsMore(m: Parameters, n: nat, n': nat)
    requires Fits(m, n) && n <= n'
    ensures Fits(m, n')
  {
  }

  /** Parsed parameters never take more room than the bytes they were read from. */
  lemma {:induction false} ParsedFits(buf: seq<Byte>, pos: nat, m: Parameters)
    requires 4 <= pos <= |buf| && Fits(m, pos - 4)
    ensures Fits(ParsePairs(buf, pos, m), |buf| - 4)
    decreases |buf| - pos
  {
    hide Fits, NextNul, Store;
    FitsMore(m, pos - 4, |buf| - 4);
    if pos + 1 < |buf| {
      var a := NextNul(buf, pos);
      if a < |buf| {
        var b := NextNul(buf, a + 1);
        if b < |buf| {
          StoreFits(m, buf[pos..a], buf[a + 1..b], pos - 4);
          ParsedFits(buf, b + 1, Store(m, buf[pos..a], buf[a + 1..b]));
        }
      }
    }
  }

  lemma NoKeys(order: seq<Text>, m: Parameters)
    requires Within(order, m)
    ensures order == [] || m != map[]
  {
    if order != [] {
      assert order[0] in order;
    }
  }

  lemma NothingFits()
    ensures Fits(map[], 0) && WellFormed(map[])
  {
    var m: Parameters := map[];
    forall order: seq<Text> | forall k :: k in order ==> k in m ensures PairsSize(m, order) <= 0 {
      NoKeys(order, m);
    }
  }

  /** A message comes back exactly when its keys are non-empty, nothing holds a NUL and it is at most 10000 bytes long. */
  lemma RoundTripExactly(version: nat, m: Parameters, order: seq<Text>, rest: seq<Byte>)
    requires version < U32 && Walks(order, m)
    ensures Parse(Print(version, m, order) + rest) == Message(version, m, rest)
            <==> WellFormed(m) && PairsSize(m, order) + 9 <= 10000
  {
    if WellFormed(m) && PairsSize(m, order) + 9 <= MAX_LENGTH {
      StartupRoundTrip(version, m, order, rest);
    }
    var stream := Print(version, m, order) + rest;
    if Parse(stream) == Message(version, m, rest) {
      OnlyIf(version, m, order, rest);
    }
  }

  lemma ParsedSound(buf: seq<Byte>, m: Parameters)
    requires |buf| >= 4 && m == ParsePairs(buf, 4, map[])
    ensures WellFormed(m) && Fits(m, |buf| - 4)
  {
    NothingFits();
    ParsedWellFormed(buf, 4, map[]);
    ParsedFits(buf, 4, map[]);
  }

  lemma FitsWalk(m: Parameters, order: seq<Text>, n: nat)
    requires Fits(m, n) && Walks(order, m)
    ensures PairsSize(m, order) <= n
  {
    assert Distinct(order);
  }

  lemma OnlyIf(version: nat, m: Parameters, order: seq<Text>, rest: seq<Byte>)
    requires version < U32 && Walks(order, m) && Parse(Print(version, m, order) + rest) == Message(version, m, rest)
    ensures WellFormed(m) && PairsSize(m, order) + 9 <= MAX_LENGTH
  {
    hide ParsePairs, WellFormed, Pairs, PutUint32, Uint32;
    var stream := Print(version, m, order) + rest;
    var length := Uint32(stream);
    ParsedSound(stream[4..length], m);
    FitsWalk(m, order, length - 8);
    assert stream[..4] == PutUint32(PairsSize(m, order) + 9);
    Uint32At(stream, PairsSize(m, order) + 9);
  }

  // ----- the two procedures -----

  lemma NonEmpty(a: seq<Text>, b: seq<Text>)
    requires forall k :: k in b ==> k in a
    ensures b != [] ==> a != []
  {
    if b != [] {
      assert b[0] in a;
    }
  }

  /** The length does not depend on the order of the walk. */
  lemma {:induction false} SizeAnyWalk(m: Parameters, a: seq<Text>, b: seq<Text>)
    requires Distinct(a) && Distinct(b) && (forall k :: k in a ==> k in m) && (forall k :: k in b <==> k in a)
    ensures PairsSize(m, a) == PairsSize(m, b)
    decreases |a|
  {
    NonEmpty(a, b);
    if a != [] {
      var n := |a| - 1;
      assert a[n] in a;
      var i :| 0 <= i < |b| && b[i] == a[n];
      SizeWithout(m, a, n);
      SizeWithout(m, b, i);
      WithoutDistinct(a, n);
      WithoutDistinct(b, i);
      SizeAnyWalk(m, Without(a, n), Without(b, i));
    }
  }

  method MessageLength(m: Parameters, order: seq<Text>) returns (length: nat)
    requires Within(order, m)
    ensures length == 4 + PairsSize(m, order) + 1
  {
    length := 4;
    for i := 0 to |order|
      invariant length == 4 + PairsSize(m, order[..i])
    {
      assert order[..i + 1][..i] == order[..i];
      length := length + |order[i]| + 1 + |m[order[i]]| + 1;
    }
    assert order[..|order|] == order;
    length := length + 1;
  }

  lemma PairsNext(m: Parameters, order: seq<Text>, i: nat)
    requires Within(order, m) && i < |order|
    ensures Pairs(m, order[..i + 1]) == Pairs(m, order[..i]) + (order[i] + [0] + m[order[i]] + [0])
  {
    assert order[..i + 1][..i] == order[..i];
  }

  method WritePairs(m: Parameters, order: seq<Text>) returns (out: seq<Byte>)
    requires Within(order, m)
    ensures out == Pairs(m, order)
  {
    out := [];
    for i := 0 to |order|
      invariant out == Pairs(m, order[..i])
    {
      PairsNext(m, order, i);
      out := out + (order[i] + [0] + m[order[i]] + [0]);
    }
    assert order[..|order|] == order;
  }

  /** WriteStartupMessage walks the map twice, each time in an order of its own. */
  method WriteStartupMessage(version: nat, m: Parameters, first: seq<Text>, second: seq<Text>) returns (out: seq<Byte>)
    requires Walks(first, m) && Walks(second, m)
    ensures out == Print(version, m, second)
  {
    var length := MessageLength(m, first);
    SizeAnyWalk(m, first, second);
    var pairs := WritePairs(m, second);
    hide Pairs, PairsSize, PutUint32;
    out := PutUint32(length + 4) + (PutUint32(version) + pairs + [0]);
  }

  method FindNul(buf: seq<Byte>, start: nat) returns (pos: nat)
    requires start <= |buf|
    ensures pos == NextNul(buf, start)
  {
    pos := start;
    while pos < |buf| && buf[pos] != 0
      invariant start <= pos <= |buf| && NextNul(buf, pos) == NextNul(buf, start)
    {
      pos := pos + 1;
    }
  }

  method ReadStartupMessage(stream: seq<Byte>) returns (r: Outcome)
    ensures r == Parse(stream)
  {
    if |stream| < 4 {
      return Truncated;
    }
    var length := Uint32(stream);
    if length < MIN_LENGTH || length > MAX_LENGTH {
      return BadLength(length);
    }
    if |stream| < length {
      return Truncated;
    }
    var buf := stream[4..length];
    var parameters := ReadPairs(buf);
    r := Message(Uint32(buf), parameters, stream[length..]);
  }

  lemma ParseStops(buf: seq<Byte>, pos: nat, m: Parameters)
    requires pos <= |buf|
    requires pos + 1 >= |buf| || NextNul(buf, pos) >= |buf| || NextNul(buf, NextNul(buf, pos) + 1) >= |buf|
    ensures ParsePairs(buf, pos, m) == m
  {
  }

  method ReadPairs(buf: seq<Byte>) returns (m: Parameters)
    requires |buf| >= 4
    ensures m == ParsePairs(buf, 4, map[])
  {
    hide ParsePairs, NextNul;
    m := map[];
    var pos := 4;
    while pos < |buf| - 1
      invariant pos <= |buf| && ParsePairs(buf, pos, m) == ParsePairs(buf, 4, map[])
      decreases |buf| - pos
    {
      var keyEnd := FindNul(buf, pos);
      if keyEnd >= |buf| {
        ParseStops(buf, pos, m);
        return;
      }
      var valueEnd := FindNul(buf, keyEnd + 1);
      if valueEnd >= |buf| {
        ParseStops(buf, pos, m);
        return;
      }
      ParseNext(buf, pos, m);
      var key, value := buf[pos..keyEnd], buf[keyEnd + 1..valueEnd];
      pos := valueEnd + 1;
      if key != [] {
        m := m[key := value];
      }
    }
    ParseStops(buf, pos, m);
  }
}
