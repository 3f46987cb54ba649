/** The writing and reading loops of the export format over a buffer and a byte stream. */
module JournalStream {
  import opened Octets
  import opened Wrappers
  import opened JournalFormat

  // ---- EncodeRecord ----

  /** needsBinary: the newline and NUL test, then the scan for other control bytes. */
  method ScanForControl(value: Bytes) returns (binary: bool)
    ensures binary <==> NeedsBinary(value)
  {
    if NEWLINE in value || 0 in value {
      var k :| 0 <= k < |value| && (value[k] == NEWLINE || value[k] == 0);
      assert ControlByte(value[k]);
      return true;
    }
    var i := 0;
    while i < |value|
      invariant 0 <= i <= |value| && forall k | 0 <= k < i :: !ControlByte(value[k])
    {
      if value[i] < 0x20 && value[i] != TAB {
        assert ControlByte(value[i]);
        return true;
      }
      i := i + 1;
    }
    return false;
  }

  /** The fields are listed once each, in some order. */
  predicate Enumerates(order: seq<Field>, fields: Fields) {
    && (forall k | 0 <= k < |order| :: order[k].key in fields && fields[order[k].key] == order[k].value)
    && (forall key | key in fields :: Field(key, fields[key]) in order)
  }

  lemma {:induction false} CollectLast(fields: seq<Field>, f: Field, known: Fields)
    ensures Collect(fields + [f], known) == Collect(fields, known)[f.key := f.value]
  {
    if fields == [] {
      assert fields + [f] == [f] && [f][1..] == [];
    } else {
      assert (fields + [f])[1..] == fields[1..] + [f];
      CollectLast(fields[1..], f, known[fields[0].key := fields[0].value]);
    }
  }

  /** Whatever the order, the collected fields are the map. */
  lemma CollectEnumerates(order: seq<Field>, fields: Fields)
    requires Enumerates(order, fields)
    ensures Collect(order, map[]) == fields
  {
    CollectWithin(order, fields, |order|);
    assert order[..|order|] == order;
  }

  lemma {:induction false} CollectWithin(order: seq<Field>, fields: Fields, n: nat)
    requires Enumerates(order, fields) && n <= |order|
    ensures var c := Collect(order[..n], map[]);
      && (forall key | key in c :: key in fields && c[key] == fields[key])
      && (forall k | 0 <= k < n :: order[k].key in c)
  {
    if n > 0 {
      CollectWithin(order, fields, n - 1);
      assert order[..n] == order[..n - 1] + [order[n - 1]];
      CollectLast(order[..n - 1], order[n - 1], map[]);
    }
  }

  lemma {:induction false} EncodeFieldsLast(fields: seq<Field>, f: Field)
    ensures EncodeFields(fields + [f]) == EncodeFields(fields) + EncodeField(f)
  {
    if fields == [] {
      assert fields + [f] == [f] && [f][1..] == [];
      assert EncodeFields([f]) == EncodeField(f) + EncodeFields([]);
    } else {
      assert (fields + [f])[1..] == fields[1..] + [f];
      EncodeFieldsLast(fields[1..], f);
    }
  }

  class Buffer {
    var bytes: Bytes

    constructor ()
      ensures bytes == []
    {
      bytes := [];
    }

    method WriteBytes(s: Bytes)
      modifies this
      ensures bytes == old(bytes) + s
    {
      bytes := bytes + s;
    }

    /** EncodeRecord, visiting the fields in any order. */
    method WriteRecord(fields: Fields) returns (ghost order: seq<Field>)
      modifies this
      ensures Enumerates(order, fields) && bytes == old(bytes) + EncodeRecord(order)
    {
      order := [];
      var todo := fields.Keys;
      while todo != {}
        invariant todo <= fields.Keys && bytes == old(bytes) + EncodeFields(order)
        invariant forall k | 0 <= k < |order| :: order[k].key in fields && fields[order[k].key] == order[k].value
        invariant forall key | key in fields && key !in todo :: Field(key, fields[key]) in order
        decreases todo
      {
        var key :| key in todo;
        todo := todo - {key};
        WriteField(key, fields[key]);
        EncodeFieldsLast(order, Field(key, fields[key]));
        order := order + [Field(key, fields[key])];
      }
      WriteBytes([NEWLINE]);
    }

    method WriteField(key: Bytes, value: Bytes)
      modifies this
      ensures bytes == old(bytes) + EncodeField(Field(key, value))
    {
      var binary := ScanForControl(value);
      if binary {
        WriteBytes(key + [NEWLINE]);
        WriteBytes(LittleEndian(|value|, 8));
        WriteBytes(value);
        WriteBytes([NEWLINE]);
      } else {
        WriteBytes(key + [EQUALS] + value + [NEWLINE]);
      }
    }
  }

  // ---- decodeExportRecord ----

  datatype Line = Line(content: Bytes) | NoLine(partial: Bytes)

  datatype Filled = Filled(content: Bytes) | NothingLeft | TooShort

  class Reader {
    var left: Bytes

    constructor (stream: Bytes)
      ensures left == stream
    {
      left := stream;
    }

    /** bufio.Reader.ReadBytes('\n'), without the newline. */
    method ReadLine() returns (line: Line)
      modifies this
      ensures var end := IndexOf(old(left), NEWLINE);
        if end < 0 then line == NoLine(old(left)) && left == []
        else line == Line(old(left)[..end]) && left == old(left)[end + 1..]
    {
      var end := IndexOf(left, NEWLINE);
      if end < 0 {
        line := NoLine(left);
        left := [];
      } else {
        line := Line(left[..end]);
        left := left[end + 1..];
      }
    }

    /** io.ReadFull: io.EOF only when nothing could be read. */
    method ReadFull(n: nat) returns (filled: Filled)
      modifies this
      ensures if |old(left)| >= n then filled == Filled(old(left)[..n]) && left == old(left)[n..]
              else filled == (if old(left) == [] then NothingLeft else TooShort) && left == []
    {
      if |left| >= n {
        filled := Filled(left[..n]);
        left := left[n..];
      } else {
        filled := if left == [] then NothingLeft else TooShort;
        left := [];
      }
    }

    /** The binary part of decodeExportRecord. */
    method ReadBinary() returns (v: BinaryValue)
      modifies this
      ensures v == ReadValue(old(left)) && (v.Value? ==> left == v.after)
    {
      var size := ReadFull(8);
      if !size.Filled? {
        return Failed(if size.NothingLeft? then EofInside else Truncated);
      }
      var n := FromLittleEndian(size.content);
      if n > BINARY_CAP {
        return Failed(Oversize);
      }
      var value := ReadFull(n);
      if !value.Filled? {
        return Failed(if value.NothingLeft? then EofInside else Truncated);
      }
      var terminator := ReadFull(1);
      if !terminator.Filled? {
        return Failed(EofInside);
      }
      return Value(value.content, left);
    }

    /** decodeExportRecord. */
    method DecodeRecord() returns (d: Decoded)
      modifies this
      ensures d == Decode(old(left), map[]) && (d.Complete? ==> left == d.rest)
    {
      hide ReadValue;
      var fields: Fields := map[];
      while true
        invariant Decode(left, fields) == Decode(old(left), map[])
        decreases |left|
      {
        ghost var start := left;
        var line := ReadLine();
        if line.NoLine? {
          return if line.partial == [] && fields == map[] then Ended else Truncated;
        }
        if line.content == [] {
          return Complete(fields, left);
        }
        var eq := IndexOf(line.content, EQUALS);
        if eq >= 0 {
          fields := fields[line.content[..eq] := line.content[eq + 1..]];
        } else {
          var value := ReadBinary();
          if value.Failed? {
            return value.d;
          }
          fields := fields[line.content := value.value];
        }
      }
    }

    /** drain: sends records until the stream ends; an error that wraps io.EOF ends it silently. */
    method DrainAll() returns (records: seq<Fields>, failed: bool)
      modifies this
      ensures (records, failed) == Drain(old(left))
    {
      hide Decode;
      records := [];
      assert [] + Drain(left).0 == Drain(left).0;
      while true
        invariant (records + Drain(left).0, Drain(left).1) == Drain(old(left))
        decreases |left|
      {
        ghost var start := left;
        DecodeShrinks(start, map[]);
        var d := DecodeRecord();
        assert records + [] == records;
        if !d.Complete? { DrainNone(start); }
        match d {
          case Complete(fields, rest) =>
            DrainOne(start, fields, rest);
            assert records + ([fields] + Drain(rest).0) == records + [fields] + Drain(rest).0;
            records := records + [fields];
          case Ended => return records, false;
          case EofInside => return records, false;
          case Truncated => return records, true;
          case Oversize => return records, true;
        }
      }
    }
  }

  /** Every field of the map can be written. */
  predicate WritableFields(fields: Fields) { forall key | key in fields :: Writable(Field(key, fields[key])) }

  /** A record written in any order is read back as the same map. */
  lemma RecordRoundTrip(order: seq<Field>, fields: Fields, rest: Bytes)
    requires Enumerates(order, fields) && WritableFields(fields)
    ensures Decode(EncodeRecord(order) + rest, map[]) == Complete(fields, rest)
  {
    RecordDecodes(order, rest, map[]);
    CollectEnumerates(order, fields);
  }
}
