/** The WAL object: appends, scans and the truncating rewrite, over the file's bytes and offset. */
module WalFile {
  import opened Bytes
  import opened RaftTypes
  import opened WalFormat

  class Wal {
    const codec: Codec
    var file: seq<Byte>
    var pos: nat  // the file offset shared by reads and writes
    var lastIndex: nat
    var lastTerm: nat
    ghost var records: seq<Entry>  // what has been appended since the file was created or truncated

    ghost predicate Valid()
      reads this
    {
      && codec.Faithful()
      && file == HEADER + EncodeAll(codec, records)
      && pos == |file|
    }

    /** A new, empty file: only the header is written. */
    constructor (codec: Codec)
      requires codec.Faithful()
      ensures Valid() && records == [] && this.codec == codec
      ensures lastIndex == 0 && lastTerm == 0
    {
      this.codec := codec;
      file, pos := HEADER, |HEADER|;
      lastIndex, lastTerm := 0, 0;
      records := [];
    }

    /** Writing at the file offset replaces what is there and extends the file as needed. */
    method Write(b: seq<Byte>)
      requires pos <= |file|
      modifies `file, `pos
      ensures file == old(file)[..old(pos)] + b
                      + (if old(pos) + |b| <= |old(file)| then old(file)[old(pos) + |b|..] else [])
      ensures pos == old(pos) + |b|
    {
      file := file[..pos] + b + (if pos + |b| <= |file| then file[pos + |b|..] else []);
      pos := pos + |b|;
    }

    method WriteRecord(e: Entry)
      requires Valid()
      modifies `file, `pos, `records
      ensures Valid() && records == old(records) + [e]
    {
      Write(EncodeRecord(codec, e));
      EncodeConcat(codec, records, [e]);
      assert EncodeAll(codec, [e]) == EncodeRecord(codec, e);
      records := records + [e];
    }

    method Append(e: Entry)
      requires Valid()
      modifies this
      ensures Valid() && records == old(records) + [e]
      ensures (lastIndex, lastTerm) == Latest(old(lastIndex), old(lastTerm), [e])
    {
      WriteRecord(e);
      if e.index > lastIndex {
        lastIndex, lastTerm := e.index, e.term;
      }
    }

    method AppendBatch(es: seq<Entry>)
      requires Valid()
      modifies this
      ensures Valid() && records == old(records) + es
      ensures (lastIndex, lastTerm) == Latest(old(lastIndex), old(lastTerm), es)
    {
      if es == [] {
        return;
      }
      var i := 0;
      assert es[..0] == [];
      while i < |es|
        invariant 0 <= i <= |es|
        invariant Valid() && records == old(records) + es[..i]
        invariant (lastIndex, lastTerm) == (old(lastIndex), old(lastTerm))
      {
        WriteRecord(es[i]);
        i := i + 1;
      }
      assert es[..|es|] == es && es[0..] == es;
      i := 0;
      while i < |es|
        invariant 0 <= i <= |es|
        invariant Valid() && records == old(records) + es
        invariant Latest(lastIndex, lastTerm, es[i..]) == Latest(old(lastIndex), old(lastTerm), es)
      {
        assert es[i..][0] == es[i] && es[i..][1..] == es[i + 1..];
        if es[i].index > lastIndex {
          lastIndex, lastTerm := es[i].index, es[i].term;
        }
        i := i + 1;
      }
    }

    /** The scan loop shared by recover, ReadEntries and Truncate; the reader ends at the end of file when clean. */
    method ScanRecords() returns (scan: Scan)
      requires |file| >= 8
      modifies `pos
      ensures scan == ReadAll(codec, file[8..])
      ensures scan.clean ==> pos == |file|
      ensures 8 <= pos <= |file|
    {
      var rest := file[8..];
      var entries := [];
      while true
        invariant Scan(entries + ReadAll(codec, rest).entries, ReadAll(codec, rest).clean) == ReadAll(codec, file[8..])
        decreases |rest|
      {
        match ReadEntry(codec, rest) {
          case EndOfFile =>
            pos := |file|;
            return Scan(entries, true);
          case Corrupt =>
            // buffered reading leaves the offset somewhere past the last record it needed
            var somewhere: nat :| 8 <= somewhere <= |file|;
            pos := somewhere;
            return Scan(entries, false);
          case Record(e, r) =>
            entries := entries + [e];
            rest := r;
        }
      }
    }

    /** Opening an existing file: the header must match, and reading stops quietly at the first bad record. */
    method Recover() returns (ok: bool)
      requires |file| > 0
      modifies `pos, `lastIndex, `lastTerm
      ensures ok <==> |file| >= 8 && Uint32(file) == 0x5741_4C00 && Uint32(file[4..]) == 1
      ensures ok ==>
        (lastIndex, lastTerm) == Latest(old(lastIndex), old(lastTerm), ReadAll(codec, file[8..]).entries)
      ensures ok && ReadAll(codec, file[8..]).clean ==> pos == |file|
    {
      if |file| < 8 || Uint32(file) != 0x5741_4C00 || Uint32(file[4..]) != 1 {
        return false;
      }
      var scan := ScanRecords();
      var es := scan.entries;
      var i := 0;
      assert es[0..] == es;
      while i < |es|
        invariant 0 <= i <= |es|
        invariant scan.clean ==> pos == |file|
        invariant Latest(lastIndex, lastTerm, es[i..]) == Latest(old(lastIndex), old(lastTerm), es)
      {
        assert es[i..][0] == es[i] && es[i..][1..] == es[i + 1..];
        if es[i].index > lastIndex {
          lastIndex, lastTerm := es[i].index, es[i].term;
        }
        i := i + 1;
      }
      return true;
    }

    /** ReadEntries: the records with index at least start, or an error when any record cannot be read. */
    method ReadEntries(start: nat) returns (es: Option<seq<Entry>>)
      requires |file| >= 8
      modifies `pos
      ensures es == (var scan := ReadAll(codec, file[8..]);
                     if scan.clean then Some(FromIndex(scan.entries, start)) else None)
      ensures old(Valid()) ==> Valid() && es == Some(FromIndex(records, start))
    {
      ghost var valid := Valid();
      if valid {
        DecodeEncode(codec, records);
        assert file[8..] == EncodeAll(codec, records);
      }
      var scan := ScanRecords();
      if !scan.clean {
        return None;
      }
      var kept := Filter(scan.entries, start);
      es := Some(kept);
    }

    /** A new file holding exactly the given records. */
    method Rewrite(kept: seq<Entry>)
      requires codec.Faithful()
      modifies `file, `pos, `records
      ensures Valid() && records == kept
    {
      file, pos := HEADER, |HEADER|;
      records := [];
      var i := 0;
      while i < |kept|
        invariant 0 <= i <= |kept|
        invariant Valid() && records == kept[..i]
      {
        WriteRecord(kept[i]);
        i := i + 1;
      }
    }

    /**
     * Truncate: rewrite the file with only the records whose index is at least before, then reopen it.
     * A record that cannot be read is an error, and the file stays as it is.
     */
    method Truncate(before: nat) returns (ok: bool)
      requires codec.Faithful() && |file| >= 8
      modifies this
      ensures ok <==> old(ReadAll(codec, file[8..])).clean
      ensures ok ==> Valid() && records == FromIndex(old(ReadAll(codec, file[8..])).entries, before)
      ensures ok ==> (lastIndex, lastTerm) == Latest(old(lastIndex), old(lastTerm), records)
      ensures !ok ==> file == old(file) && records == old(records) && lastIndex == old(lastIndex) && lastTerm == old(lastTerm)
      ensures old(Valid()) ==> ok && records == FromIndex(old(records), before)
    {
      ghost var valid := Valid();
      if valid {
        DecodeEncode(codec, records);
        assert file[8..] == EncodeAll(codec, records);
      }
      var scan := ScanRecords();
      if !scan.clean {
        return false;
      }
      var kept := Filter(scan.entries, before);
      Rewrite(kept);
      assert file[8..] == EncodeAll(codec, records);
      DecodeEncode(codec, records);
      HeaderReads(file);
      ok := Recover();
    }
  }

  lemma HeaderReads(file: seq<Byte>)
    requires HEADER <= file
    ensures Uint32(file) == 0x5741_4C00 && Uint32(file[4..]) == 1
  {
    assert file[..4] == HEADER[..4] && file[4..][..4] == HEADER[4..];
    Uint32At(file, 0x5741_4C00);
    Uint32At(file[4..], 1);
  }

  method Filter(es: seq<Entry>, start: nat) returns (kept: seq<Entry>)
    ensures kept == FromIndex(es, start)
  {
    kept := [];
    var i := 0;
    while i < |es|
      invariant 0 <= i <= |es|
      invariant kept == FromIndex(es[..i], start)
    {
      assert es[..i + 1][..i] == es[..i];
      if es[i].index >= start {
        kept := kept + [es[i]];
      }
      i := i + 1;
    }
    assert es[..|es|] == es;
  }
}
