/**
 * The write-ahead log file of internal/raft/wal.go: an 8-byte header followed by records, each a
 * CRC-32, a length and the entry as JSON.  CRC and JSON are parameters of which only the round
 * trip is assumed.
 */
module WalFormat {
  import opened Bytes
  import opened RaftTypes

  const HEADER: seq<Byte> := PutUint32(0x5741_4C00) + PutUint32(1)

  datatype Codec = Codec(marshal: Entry -> seq<Byte>, unmarshal: seq<Byte> -> Option<Entry>, crc: seq<Byte> -> nat)
  {
    /** JSON of an entry is never empty, fits a 32-bit length and decodes to the entry; CRC is 32 bits wide. */
    ghost predicate Faithful() {
      && (forall e :: 0 < |marshal(e)| < U32 && unmarshal(marshal(e)) == Some(e))
      && (forall d :: crc(d) < U32)
    }
  }

  function EncodeRecord(c: Codec, e: Entry): seq<Byte> {
    var data := c.marshal(e);
    PutUint32(c.crc(data)) + PutUint32(|data|) + data
  }

  function EncodeAll(c: Codec, es: seq<Entry>): seq<Byte> {
    if es == [] then [] else EncodeRecord(c, es[0]) + EncodeAll(c, es[1..])
  }

  datatype ReadResult = EndOfFile | Corrupt | Record(entry: Entry, rest: seq<Byte>)

  /**
   * readEntry: running out of bytes exactly before the checksum, the length or the data reads as a
   * clean end of file, running out in the middle of one of them as an error.
   */
  function ReadEntry(c: Codec, b: seq<Byte>): (r: ReadResult)
    ensures r.Record? ==> |r.rest| < |b|
  {
    if |b| == 0 then EndOfFile
    else if |b| < 4 then Corrupt
    else if |b| == 4 then EndOfFile
    else if |b| < 8 then Corrupt
    else
      var length := Uint32(b[4..]);
      if length > 0 && |b| == 8 then EndOfFile
      else if |b| < 8 + length then Corrupt
      else
        var data := b[8..8 + length];
        if c.crc(data) != Uint32(b) then Corrupt
        else match c.unmarshal(data)
          case None => Corrupt
          case Some(e) => Record(e, b[8 + length..])
  }

  datatype Scan = Scan(entries: seq<Entry>, clean: bool)

  /** All records up to the end of file (clean) or up to the first one that cannot be read. */
  function ReadAll(c: Codec, b: seq<Byte>): Scan
    decreases |b|
  {
    match ReadEntry(c, b)
    case EndOfFile => Scan([], true)
    case Corrupt => Scan([], false)
    case Record(e, rest) =>
      var s := ReadAll(c, rest);
      Scan([e] + s.entries, s.clean)
  }

  function FromIndex(es: seq<Entry>, start: nat): seq<Entry> {
    if es == [] then []
    else
      var last := es[|es| - 1];
      FromIndex(es[..|es| - 1], start) + (if last.index >= start then [last] else [])
  }

  lemma ReadEncoded(c: Codec, e: Entry, rest: seq<Byte>)
    requires c.Faithful()
    ensures ReadEntry(c, EncodeRecord(c, e) + rest) == Record(e, rest)
  {
    var data := c.marshal(e);
    var b := EncodeRecord(c, e) + rest;
    HeaderFields(c, e, rest);
    assert b[8..8 + |data|] == data;
    assert b[8 + |data|..] == rest;
  }

  lemma HeaderFields(c: Codec, e: Entry, rest: seq<Byte>)
    requires c.Faithful()
    ensures var b := EncodeRecord(c, e) + rest;
            Uint32(b) == c.crc(c.marshal(e)) && Uint32(b[4..]) == |c.marshal(e)|
  {
    var data := c.marshal(e);
    var b := EncodeRecord(c, e) + rest;
    assert b[..4] == PutUint32(c.crc(data));
    assert b[4..][..4] == PutUint32(|data|);
    Uint32At(b, c.crc(data));
    Uint32At(b[4..], |data|);
  }

  // ----- exactly what reads as a record -----

  /** The bytes of one record with these contents, whether or not they are an entry's own. */
  function Framed(crc: nat, data: seq<Byte>): seq<Byte> {
    PutUint32(crc) + PutUint32(|data|) + data
  }

  lemma FramedParts(crc: nat, data: seq<Byte>, rest: seq<Byte>)
    requires crc < U32 && |data| < U32
    ensures var b := Framed(crc, data) + rest;
            && |b| == 8 + |data| + |rest| && Uint32(b) == crc && Uint32(b[4..]) == |data|
            && b[8..8 + |data|] == data && b[8 + |data|..] == rest
  {
    var b := Framed(crc, data) + rest;
    assert b[..4] == PutUint32(crc) && b[4..][..4] == PutUint32(|data|);
    Uint32At(b, crc);
    Uint32At(b[4..], |data|);
    assert b[8..8 + |data|] == data && b[8 + |data|..] == rest;
  }

  lemma SplitFrame(b: seq<Byte>)
    requires |b| >= 8 && |b| >= 8 + Uint32(b[4..])
    ensures var data := b[8..8 + Uint32(b[4..])]; b == Framed(Uint32(b), data) + b[8 + Uint32(b[4..])..]
  {
    var length := Uint32(b[4..]);
    PutUint32Inverse(b[..4]);
    PutUint32Inverse(b[4..8]);
    assert Uint32(b[..4]) == Uint32(b) && Uint32(b[4..8]) == length;
    assert b == b[..4] + b[4..8] + b[8..8 + length] + b[8 + length..];
  }

  ghost predicate IsFrame(c: Codec, b: seq<Byte>, e: Entry, rest: seq<Byte>, data: seq<Byte>) {
    |data| < U32 && b == Framed(c.crc(data), data) + rest && c.unmarshal(data) == Some(e)
  }

  /**
   * For every byte sequence: a record is read exactly when the bytes start with the checksum of some
   * data, its length and the data itself, and the data decodes to the entry.
   */
  lemma ReadEntryExactly(c: Codec, b: seq<Byte>, e: Entry, rest: seq<Byte>)
    requires forall d :: c.crc(d) < U32
    ensures ReadEntry(c, b) == Record(e, rest) <==> exists data :: IsFrame(c, b, e, rest, data)
  {
    if ReadEntry(c, b) == Record(e, rest) {
      SplitFrame(b);
      assert IsFrame(c, b, e, rest, b[8..8 + Uint32(b[4..])]);
    }
    if data :| IsFrame(c, b, e, rest, data) {
      FramedParts(c.crc(data), data, rest);
    }
  }

  /** And the end of file is found exactly before a checksum, before a length, or before the data it announces. */
  lemma EndOfFileExactly(c: Codec, b: seq<Byte>)
    ensures ReadEntry(c, b) == EndOfFile <==> |b| == 0 || |b| == 4 || (|b| == 8 && b[4..] != [0, 0, 0, 0])
  {
    if |b| == 8 {
      PutUint32Inverse(b[4..]);
      assert PutUint32(0) == [0, 0, 0, 0];
    }
  }

  lemma {:induction false} ReadAllAfter(c: Codec, es: seq<Entry>, b: seq<Byte>)
    requires c.Faithful()
    ensures ReadAll(c, EncodeAll(c, es) + b) == Scan(es + ReadAll(c, b).entries, ReadAll(c, b).clean)
  {
    hide ReadEntry, EncodeRecord;
    if es == [] {
      assert EncodeAll(c, es) + b == b;
    } else {
      var rest := EncodeAll(c, es[1..]) + b;
      assert EncodeAll(c, es) + b == EncodeRecord(c, es[0]) + rest;
      ReadAllNext(c, es[0], rest);
      ReadAllAfter(c, es[1..], b);
      assert [es[0]] + (es[1..] + ReadAll(c, b).entries) == es + ReadAll(c, b).entries;
    }
  }

  /** An intact file in which one record's data was replaced by other data of another checksum. */
  function Damage(c: Codec, es: seq<Entry>, k: nat, data: seq<Byte>): seq<Byte>
    requires k < |es|
  {
    EncodeAll(c, es[..k]) + (Framed(c.crc(c.marshal(es[k])), data) + EncodeAll(c, es[k + 1..]))
  }

  /** Such a file scans to exactly the records before the damage, and the scan ends in an error. */
  lemma DamageNoticed(c: Codec, es: seq<Entry>, k: nat, data: seq<Byte>)
    requires c.Faithful() && k < |es| && |data| == |c.marshal(es[k])| && c.crc(data) != c.crc(c.marshal(es[k]))
    ensures |Damage(c, es, k, data)| == |EncodeAll(c, es)|
    ensures ReadAll(c, Damage(c, es, k, data)) == Scan(es[..k], false)
  {
    var crc, rest := c.crc(c.marshal(es[k])), EncodeAll(c, es[k + 1..]);
    FramedParts(crc, data, rest);
    assert ReadEntry(c, Framed(crc, data) + rest) == Corrupt;
    ReadAllAfter(c, es[..k], Framed(crc, data) + rest);
    assert es[..k] + [] == es[..k];
    assert es == es[..k] + es[k..] && es[k..][1..] == es[k + 1..];
    EncodeConcat(c, es[..k], es[k..]);
  }

  /** Decoding what was appended gives the entries back, in order and without a read error. */
  lemma {:induction false} DecodeEncode(c: Codec, es: seq<Entry>)
    requires c.Faithful()
    ensures ReadAll(c, EncodeAll(c, es)) == Scan(es, true)
  {
    if es != [] {
      ReadEncoded(c, es[0], EncodeAll(c, es[1..]));
      DecodeEncode(c, es[1..]);
    }
  }

  lemma {:induction false} EncodeConcat(c: Codec, es: seq<Entry>, fs: seq<Entry>)
    ensures EncodeAll(c, es + fs) == EncodeAll(c, es) + EncodeAll(c, fs)
  {
    if es == [] {
      assert es + fs == fs;
    } else {
      assert (es + fs)[0] == es[0] && (es + fs)[1..] == es[1..] + fs;
      EncodeConcat(c, es[1..], fs);
    }
  }

  /** How many records lie completely inside the first n bytes. */
  ghost function WholeRecords(c: Codec, es: seq<Entry>, n: nat): (k: nat)
    ensures k <= |es|
    ensures |EncodeAll(c, es[..k])| <= n
    ensures k < |es| ==> n < |EncodeAll(c, es[..k])| + |EncodeRecord(c, es[k])|
  {
    if es == [] || n < |EncodeRecord(c, es[0])| then 0
    else
      var k := 1 + WholeRecords(c, es[1..], n - |EncodeRecord(c, es[0])|);
      assert es[..k][0] == es[0] && es[..k][1..] == es[1..][..k - 1];
      k
  }

  /**
   * A file cut off at any byte (a torn write) yields exactly the records that were completely
   * written, and the scan ends without error if and only if the cut falls on a record boundary,
   * right after a checksum, or right after a length.
   */
  lemma {:induction false} TornTail(c: Codec, es: seq<Entry>, n: nat)
    requires c.Faithful()
    requires n <= |EncodeAll(c, es)|
    ensures var k := WholeRecords(c, es, n);
            var scan := ReadAll(c, EncodeAll(c, es)[..n]);
            var left := n - |EncodeAll(c, es[..k])|;
            scan.entries == es[..k] && (scan.clean <==> left == 0 || left == 4 || left == 8)
    decreases |es|
  {
    hide ReadEntry, EncodeRecord, EncodeAll, ReadAll, WholeRecords;
    if es == [] {
      NothingWritten(c);
      assert es[..0] == es;
    } else {
      var first, rest := EncodeRecord(c, es[0]), EncodeAll(c, es[1..]);
      EncodeNext(c, es);
      if n < |first| {
        PrefixInside(first, rest, n);
        NothingWhole(c, es, n);
      } else {
        PrefixBeyond(first, rest, n);
        ReadAllNext(c, es[0], rest[..n - |first|]);
        TornTail(c, es[1..], n - |first|);
        WholeNext(c, es, n);
      }
    }
  }

  lemma EncodeNext(c: Codec, es: seq<Entry>)
    requires es != []
    ensures EncodeAll(c, es) == EncodeRecord(c, es[0]) + EncodeAll(c, es[1..])
  {
  }

  lemma PrefixInside(a: seq<Byte>, b: seq<Byte>, n: nat)
    requires n < |a|
    ensures (a + b)[..n] == a[..n]
  {
  }

  lemma PrefixBeyond(a: seq<Byte>, b: seq<Byte>, n: nat)
    requires |a| <= n <= |a + b|
    ensures (a + b)[..n] == a + b[..n - |a|]
  {
  }

  lemma ReadAllNext(c: Codec, e: Entry, rest: seq<Byte>)
    requires c.Faithful()
    ensures var s := ReadAll(c, rest); ReadAll(c, EncodeRecord(c, e) + rest) == Scan([e] + s.entries, s.clean)
  {
    hide ReadEntry, EncodeRecord;
    ReadEncoded(c, e, rest);
  }

  lemma NothingWhole(c: Codec, es: seq<Entry>, n: nat)
    requires es != [] && n < |EncodeRecord(c, es[0])|
    requires c.Faithful()
    ensures WholeRecords(c, es, n) == 0 && |EncodeAll(c, es[..0])| == 0 && es[..0] == []
    ensures ReadAll(c, EncodeRecord(c, es[0])[..n]) == Scan([], n == 0 || n == 4 || n == 8)
  {
    TornRecord(c, es[0], n);
    hide ReadEntry, EncodeRecord;
  }

  lemma WholeNext(c: Codec, es: seq<Entry>, n: nat)
    requires es != [] && n >= |EncodeRecord(c, es[0])|
    ensures var m := n - |EncodeRecord(c, es[0])|;
            var k, k' := WholeRecords(c, es, n), WholeRecords(c, es[1..], m);
            && k == k' + 1 && es[..k] == [es[0]] + es[1..][..k']
            && |EncodeAll(c, es[..k])| == |EncodeRecord(c, es[0])| + |EncodeAll(c, es[1..][..k'])|
  {
    hide EncodeRecord;
    var k := WholeRecords(c, es, n);
    assert es[..k][0] == es[0] && es[..k][1..] == es[1..][..k - 1];
  }

  lemma NothingWritten(c: Codec)
    ensures EncodeAll(c, []) == [] && ReadAll(c, []) == Scan([], true)
  {
  }

  lemma TornRecord(c: Codec, e: Entry, n: nat)
    requires c.Faithful() && n < |EncodeRecord(c, e)|
    ensures ReadEntry(c, EncodeRecord(c, e)[..n])
         == if n == 0 || n == 4 || n == 8 then EndOfFile else Corrupt
  {
    var b := EncodeRecord(c, e)[..n];
    if n >= 8 {
      HeaderFields(c, e, []);
      assert EncodeRecord(c, e) + [] == EncodeRecord(c, e);
      assert b[4..][..4] == EncodeRecord(c, e)[4..][..4];
    }
  }

  /** The running (last index, last term) that Append, AppendBatch and recover maintain. */
  function Latest(index: nat, term: nat, es: seq<Entry>): (nat, nat)
    decreases |es|
  {
    if es == [] then (index, term)
    else if es[0].index > index then Latest(es[0].index, es[0].term, es[1..])
    else Latest(index, term, es[1..])
  }

  lemma {:induction false} LatestConcat(index: nat, term: nat, es: seq<Entry>, fs: seq<Entry>)
    ensures Latest(index, term, es + fs) == Latest(Latest(index, term, es).0, Latest(index, term, es).1, fs)
    decreases |es|
  {
    if es == [] {
      assert es + fs == fs;
    } else {
      assert (es + fs)[0] == es[0] && (es + fs)[1..] == es[1..] + fs;
      var i := if es[0].index > index then es[0].index else index;
      var t := if es[0].index > index then es[0].term else term;
      LatestConcat(i, t, es[1..], fs);
    }
  }

  // ----- what is kept, and the last index -----

  lemma {:induction false} FromIndexConcat(es: seq<Entry>, fs: seq<Entry>, start: nat)
    ensures FromIndex(es + fs, start) == FromIndex(es, start) + FromIndex(fs, start)
  {
    if fs == [] {
      assert es + fs == es;
    } else {
      var n := |fs| - 1;
      assert (es + fs)[..|es + fs| - 1] == es + fs[..n];
      FromIndexConcat(es, fs[..n], start);
    }
  }

  /** An entry is kept exactly when its index is not before the start; kept entries stay in order, by FromIndexConcat. */
  lemma {:induction false} FromIndexMeans(es: seq<Entry>, start: nat)
    ensures forall e :: e in FromIndex(es, start) <==> e in es && e.index >= start
    ensures (forall e :: e in es ==> e.index >= start) ==> FromIndex(es, start) == es
    ensures (forall e :: e in es ==> e.index < start) ==> FromIndex(es, start) == []
  {
    if es != [] {
      var n := |es| - 1;
      FromIndexMeans(es[..n], start);
      assert es == es[..n] + [es[n]];
    }
  }

  /** es[k] is the first entry with the greatest index, and that is above the one before. */
  ghost predicate FirstGreatest(es: seq<Entry>, index: nat, k: nat) {
    && k < |es| && es[k].index > index
    && (forall j :: 0 <= j < |es| ==> es[j].index <= es[k].index)
    && (forall j :: 0 <= j < k ==> es[j].index < es[k].index)
  }

  ghost predicate NoneAbove(es: seq<Entry>, index: nat) {
    forall j :: 0 <= j < |es| ==> es[j].index <= index
  }

  lemma GreatestLater(es: seq<Entry>, index: nat, k: nat)
    requires es != [] && (if es[0].index > index then FirstGreatest(es[1..], es[0].index, k) else FirstGreatest(es[1..], index, k))
    ensures FirstGreatest(es, index, k + 1)
  {
    assert forall j :: 0 < j < |es| ==> es[j] == es[1..][j - 1];
  }

  lemma GreatestFirst(es: seq<Entry>, index: nat)
    requires es != [] && NoneAbove(es[1..], if es[0].index > index then es[0].index else index)
    ensures if es[0].index > index then FirstGreatest(es, index, 0) else NoneAbove(es, index)
  {
    assert forall j :: 0 < j < |es| ==> es[j] == es[1..][j - 1];
  }

  /** The running last index is the greatest one, with the term of its first occurrence; it stays when none is greater. */
  lemma {:induction false} LatestMeans(index: nat, term: nat, es: seq<Entry>) returns (k: nat)
    ensures NoneAbove(es, index) ==> Latest(index, term, es) == (index, term)
    ensures !NoneAbove(es, index) ==> FirstGreatest(es, index, k) && Latest(index, term, es) == (es[k].index, es[k].term)
    decreases |es|
  {
    k := 0;
    if es != [] {
      hide NoneAbove, FirstGreatest;
      var higher := es[0].index > index;
      var j := LatestMeans(if higher then es[0].index else index, if higher then es[0].term else term, es[1..]);
      if NoneAbove(es[1..], if higher then es[0].index else index) {
        GreatestFirst(es, index);
        Apart(es, index, 0);
      } else {
        GreatestLater(es, index, j);
        Apart(es, index, j + 1);
        assert es[j + 1] == es[1..][j] by {
          InRange(es[1..], if higher then es[0].index else index, j);
        }
        k := j + 1;
      }
    }
  }

  lemma Apart(es: seq<Entry>, index: nat, k: nat)
    ensures FirstGreatest(es, index, k) ==> k < |es| && !NoneAbove(es, index)
  {
  }

  lemma InRange(es: seq<Entry>, index: nat, k: nat)
    requires FirstGreatest(es, index, k)
    ensures k < |es|
  {
  }
}
