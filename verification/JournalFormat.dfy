/** The systemd Journal Export Format, as the uploader writes it and the journalctl reader parses it. */
module JournalFormat {
  import opened Octets
  import opened Wrappers

  /** One journal field. */
  datatype Field = Field(key: Bytes, value: Bytes)

  const NEWLINE: Byte := 10
  const TAB: Byte := 9
  const EQUALS: Byte := 61
  const BINARY_CAP: nat := 0x4000_0000

  // ---- Writing ----

  /** A byte the text form cannot carry. */
  predicate ControlByte(b: Byte) { b < 0x20 && b != TAB }

  predicate NeedsBinary(value: Bytes) { exists k :: 0 <= k < |value| && ControlByte(value[k]) }

  function LittleEndian(n: nat, width: nat): (s: Bytes)
    ensures |s| == width
  {
    if width == 0 then [] else [n % 256] + LittleEndian(n / 256, width - 1)
  }

  function FromLittleEndian(s: Bytes): nat {
    if s == [] then 0 else s[0] + 256 * FromLittleEndian(s[1..])
  }

  function Capacity(width: nat): nat { if width == 0 then 1 else 256 * Capacity(width - 1) }

  lemma {:induction false} LittleEndianRoundTrip(n: nat, width: nat)
    requires n < Capacity(width)
    ensures FromLittleEndian(LittleEndian(n, width)) == n
  {
    if width > 0 {
      LittleEndianRoundTrip(n / 256, width - 1);
      assert LittleEndian(n, width)[1..] == LittleEndian(n / 256, width - 1);
    }
  }

  function EncodeField(f: Field): Bytes {
    if NeedsBinary(f.value) then f.key + [NEWLINE] + LittleEndian(|f.value|, 8) + f.value + [NEWLINE]
    else f.key + [EQUALS] + f.value + [NEWLINE]
  }

  function EncodeFields(fields: seq<Field>): Bytes {
    if fields == [] then [] else EncodeField(fields[0]) + EncodeFields(fields[1..])
  }

  function EncodeRecord(fields: seq<Field>): Bytes { EncodeFields(fields) + [NEWLINE] }

  function EncodeAll(records: seq<seq<Field>>): Bytes {
    if records == [] then [] else EncodeRecord(records[0]) + EncodeAll(records[1..])
  }

  // ---- Reading ----

  type Fields = map<Bytes, Bytes>

  /**
   * How reading one record ends.  Ended is io.EOF between records; EofInside is an error that wraps io.EOF, which the
   * caller cannot tell from Ended; Truncated wraps io.ErrUnexpectedEOF.
   */
  datatype Decoded = Complete(fields: Fields, rest: Bytes) | Ended | EofInside | Truncated | Oversize

  function IndexOf(s: Bytes, b: Byte): (i: int)
    ensures -1 <= i < |s| && (i >= 0 ==> s[i] == b) && (i < 0 ==> b !in s)
  {
    if s == [] then -1
    else if s[0] == b then 0
    else
      var i := IndexOf(s[1..], b);
      if i < 0 then -1 else i + 1
  }

  datatype BinaryValue = Value(value: Bytes, after: Bytes) | Failed(d: Decoded)

  /** The length, the bytes and the terminator that follow a binary field's name line. */
  function ReadValue(rest: Bytes): (v: BinaryValue)
    ensures v.Value? ==> |v.after| < |rest|
    ensures v.Failed? ==> v.d.EofInside? || v.d.Truncated? || v.d.Oversize?
  {
    if |rest| < 8 then Failed(if rest == [] then EofInside else Truncated)
    else
      var n := FromLittleEndian(rest[..8]);
      if n > BINARY_CAP then Failed(Oversize)
      else if |rest| - 8 < n then Failed(if |rest| == 8 then EofInside else Truncated)
      else if |rest| - 8 == n then Failed(EofInside)
      else Value(rest[8..n + 8], rest[n + 9..])
  }

  /** decodeExportRecord on what is left of the stream, with the fields read so far. */
  function Decode(s: Bytes, fields: Fields): Decoded
    decreases |s|
  {
    var end := IndexOf(s, NEWLINE);
    if end < 0 then (if s == [] && fields == map[] then Ended else Truncated)
    else if end == 0 then Complete(fields, s[1..])
    else
      var line, rest := s[..end], s[end + 1..];
      var eq := IndexOf(line, EQUALS);
      if eq >= 0 then Decode(rest, fields[line[..eq] := line[eq + 1..]])
      else
        match ReadValue(rest)
        case Value(value, after) => Decode(after, fields[line := value])
        case Failed(d) => d
  }

  /** drain: the records read until the stream ends, and whether an error was reported. */
  function Drain(s: Bytes): (seq<Fields>, bool)
    decreases |s|
  {
    match Decode(s, map[])
    case Complete(fields, rest) =>
      if |rest| < |s| then
        var more := Drain(rest);
        ([fields] + more.0, more.1)
      else ([], true)
    case Ended => ([], false)
    case EofInside => ([], false)
    case Truncated => ([], true)
    case Oversize => ([], true)
  }

  lemma {:induction false} DecodeShrinks(s: Bytes, fields: Fields)
    ensures Decode(s, fields).Complete? ==> |Decode(s, fields).rest| < |s|
    decreases |s|
  {
    hide ReadValue, IndexOf;
    var end := IndexOf(s, NEWLINE);
    if end > 0 {
      var line, rest := s[..end], s[end + 1..];
      var eq := IndexOf(line, EQUALS);
      if eq >= 0 {
        DecodeShrinks(rest, fields[line[..eq] := line[eq + 1..]]);
      } else {
        var read := ReadValue(rest);
        if read.Value? { DecodeShrinks(read.after, fields[line := read.value]); }
      }
    }
  }

  // ---- Round trip ----

  /** A field the format can carry: a name without separators, and a binary value under the reader's cap. */
  predicate Writable(f: Field) {
    && f.key != [] && EQUALS !in f.key && NEWLINE !in f.key
    && (NeedsBinary(f.value) ==> |f.value| <= BINARY_CAP)
  }

  predicate AllWritable(fields: seq<Field>) { forall k | 0 <= k < |fields| :: Writable(fields[k]) }

  /** What the fields amount to, whatever their order: a name's last value. */
  function Collect(fields: seq<Field>, known: Fields): Fields {
    if fields == [] then known else Collect(fields[1..], known[fields[0].key := fields[0].value])
  }

  lemma {:induction false} IndexOfFirst(a: Bytes, b: Byte, rest: Bytes)
    requires b !in a
    ensures IndexOf(a + [b] + rest, b) == |a|
  {
    var s := a + [b] + rest;
    if a != [] {
      IndexOfFirst(a[1..], b, rest);
      assert s[1..] == a[1..] + [b] + rest;
      assert s[0] == a[0];
    }
  }

  lemma CapFits()
    ensures BINARY_CAP < Capacity(8)
  {
    assert Capacity(4) == 0x1_0000_0000;
    assert Capacity(8) == 256 * (256 * (256 * (256 * Capacity(4))));
  }

  lemma TextHasNoNewline(value: Bytes)
    requires !NeedsBinary(value)
    ensures NEWLINE !in value
  {
    forall k | 0 <= k < |value| ensures value[k] != NEWLINE {
      assert !ControlByte(value[k]);
    }
  }

  lemma TextDecodes(key: Bytes, value: Bytes, rest: Bytes, known: Fields)
    requires key != [] && EQUALS !in key && NEWLINE !in key && NEWLINE !in value
    ensures Decode(key + [EQUALS] + value + [NEWLINE] + rest, known) == Decode(rest, known[key := value])
  {
    hide IndexOf;
    var line := key + [EQUALS] + value;
    var s := line + [NEWLINE] + rest;
    IndexOfFirst(line, NEWLINE, rest);
    IndexOfFirst(key, EQUALS, value);
    assert s[..|line|] == line && s[|line| + 1..] == rest;
    assert line[..|key|] == key && line[|key| + 1..] == value;
  }

  /** The first line of a binary field is its bare name. */
  lemma NameLine(key: Bytes, tail: Bytes)
    requires EQUALS !in key && NEWLINE !in key
    ensures var s := key + [NEWLINE] + tail;
      IndexOf(s, NEWLINE) == |key| && s[..|key|] == key && s[|key| + 1..] == tail && IndexOf(key, EQUALS) < 0
  {
    IndexOfFirst(key, NEWLINE, tail);
  }

  lemma ValueReadBack(size: Bytes, value: Bytes, rest: Bytes)
    requires |size| == 8 && FromLittleEndian(size) == |value| <= BINARY_CAP
    ensures ReadValue(size + value + [NEWLINE] + rest) == Value(value, rest)
  {
    hide FromLittleEndian;
    var tail := size + value + [NEWLINE] + rest;
    assert tail[..8] == size && tail[8..|value| + 8] == value && tail[|value| + 9..] == rest;
  }

  lemma BinaryDecodes(key: Bytes, value: Bytes, rest: Bytes, known: Fields)
    requires key != [] && EQUALS !in key && NEWLINE !in key && |value| <= BINARY_CAP
    ensures Decode(key + [NEWLINE] + (LittleEndian(|value|, 8) + value + [NEWLINE] + rest), known)
            == Decode(rest, known[key := value])
  {
    hide IndexOf, LittleEndian, FromLittleEndian, ReadValue;
    var tail := LittleEndian(|value|, 8) + value + [NEWLINE] + rest;
    NameLine(key, tail);
    CapFits();
    LittleEndianRoundTrip(|value|, 8);
    ValueReadBack(LittleEndian(|value|, 8), value, rest);
  }

  /** Reading consumes exactly one encoded field. */
  lemma FieldDecodes(f: Field, rest: Bytes, known: Fields)
    requires Writable(f)
    ensures Decode(EncodeField(f) + rest, known) == Decode(rest, known[f.key := f.value])
  {
    hide Decode, LittleEndian, NeedsBinary;
    if NeedsBinary(f.value) {
      BinaryDecodes(f.key, f.value, rest, known);
      assert EncodeField(f) + rest == f.key + [NEWLINE] + (LittleEndian(|f.value|, 8) + f.value + [NEWLINE] + rest);
    } else {
      TextHasNoNewline(f.value);
      TextDecodes(f.key, f.value, rest, known);
      assert EncodeField(f) + rest == f.key + [EQUALS] + f.value + [NEWLINE] + rest;
    }
  }

  lemma {:induction false} RecordDecodes(fields: seq<Field>, rest: Bytes, known: Fields)
    requires AllWritable(fields)
    ensures Decode(EncodeRecord(fields) + rest, known) == Complete(Collect(fields, known), rest)
  {
    if fields == [] {
      var s := EncodeRecord(fields) + rest;
      assert s[0] == NEWLINE && s[1..] == rest;
    } else {
      var f := fields[0];
      assert EncodeRecord(fields) + rest == EncodeField(f) + (EncodeRecord(fields[1..]) + rest);
      FieldDecodes(f, EncodeRecord(fields[1..]) + rest, known);
      RecordDecodes(fields[1..], rest, known[f.key := f.value]);
    }
  }

  function CollectAll(records: seq<seq<Field>>): seq<Fields> {
    seq(|records|, i requires 0 <= i < |records| => Collect(records[i], map[]))
  }

  /** Draining what was encoded returns the records, in order, without an error. */
  lemma {:induction false} StreamRoundTrip(records: seq<seq<Field>>)
    requires forall k | 0 <= k < |records| :: AllWritable(records[k])
    ensures Drain(EncodeAll(records)) == (CollectAll(records), false)
  {
    hide Decode, EncodeRecord, Collect, Drain, AllWritable;
    if records == [] {
      LineCut([], map[]);
      DrainNone([]);
    } else {
      RecordDecodes(records[0], EncodeAll(records[1..]), map[]);
      DrainOne(EncodeAll(records), Collect(records[0], map[]), EncodeAll(records[1..]));
      StreamRoundTrip(records[1..]);
      assert CollectAll(records) == [Collect(records[0], map[])] + CollectAll(records[1..]);
    }
  }

  // ---- Truncation ----

  /** The cuts inside a field that look like a clean end: after a binary field's name line, its length, or its value. */
  predicate QuietInField(f: Field, cut: nat) {
    NeedsBinary(f.value) && (cut == |f.key| + 1 || cut == |f.key| + 9 || cut == |f.key| + 9 + |f.value|)
  }

  lemma {:induction false} NoSuchByte(s: Bytes, b: Byte)
    requires b !in s
    ensures IndexOf(s, b) == -1
  {
  }

  /** How reading ends when the stream is cut inside a field. */
  lemma FieldCut(f: Field, cut: nat, known: Fields)
    requires Writable(f) && cut < |EncodeField(f)|
    ensures Decode(EncodeField(f)[..cut], known)
            == if QuietInField(f, cut) then EofInside
               else if cut == 0 && known == map[] then Ended else Truncated
  {
    hide Decode, LittleEndian, NeedsBinary;
    if NeedsBinary(f.value) {
      BinaryCut(f, cut, known);
    } else {
      TextHasNoNewline(f.value);
      var line := f.key + [EQUALS] + f.value;
      assert EncodeField(f)[..cut] == line[..cut];
      LineCut(line[..cut], known);
    }
  }

  lemma LineCut(s: Bytes, known: Fields)
    requires NEWLINE !in s
    ensures Decode(s, known) == if s == [] && known == map[] then Ended else Truncated
  {
    NoSuchByte(s, NEWLINE);
  }

  lemma BinaryCut(f: Field, cut: nat, known: Fields)
    requires Writable(f) && NeedsBinary(f.value) && cut < |EncodeField(f)|
    ensures Decode(EncodeField(f)[..cut], known)
            == if QuietInField(f, cut) then EofInside
               else if cut == 0 && known == map[] then Ended else Truncated
  {
    hide IndexOf, LittleEndian, FromLittleEndian, NeedsBinary;
    var body := LittleEndian(|f.value|, 8) + f.value + [NEWLINE];
    assert EncodeField(f) == f.key + [NEWLINE] + body;
    if cut <= |f.key| {
      assert EncodeField(f)[..cut] == f.key[..cut];
      LineCut(f.key[..cut], known);
    } else {
      var tail := body[..cut - |f.key| - 1];
      assert EncodeField(f)[..cut] == f.key + [NEWLINE] + tail;
      NameLine(f.key, tail);
      if |tail| >= 8 {
        assert tail[..8] == LittleEndian(|f.value|, 8);
        CapFits();
        LittleEndianRoundTrip(|f.value|, 8);
      }
    }
  }

  /** A cut of a record that the reader takes for a clean end; `first` says no field has been read yet. */
  predicate QuietInRecord(fields: seq<Field>, cut: nat, first: bool) {
    if fields == [] then first
    else if cut < |EncodeField(fields[0])| then (cut == 0 && first) || QuietInField(fields[0], cut)
    else QuietInRecord(fields[1..], cut - |EncodeField(fields[0])|, false)
  }

  lemma {:induction false} RecordCut(fields: seq<Field>, cut: nat, known: Fields)
    requires AllWritable(fields) && cut < |EncodeRecord(fields)|
    ensures var d := Decode(EncodeRecord(fields)[..cut], known);
      !d.Complete? && !d.Oversize? && ((d.Ended? || d.EofInside?) <==> QuietInRecord(fields, cut, known == map[]))
  {
    hide Decode, EncodeField, QuietInField, Writable;
    if fields == [] {
      LineCut([], known);
      assert EncodeRecord(fields)[..cut] == [];
    } else {
      var f := fields[0];
      var size := |EncodeField(f)|;
      assert EncodeRecord(fields) == EncodeField(f) + EncodeRecord(fields[1..]);
      if cut < size {
        assert EncodeRecord(fields)[..cut] == EncodeField(f)[..cut];
        FieldCut(f, cut, known);
        FirstCutNotQuiet(f);
      } else {
        var rest := EncodeRecord(fields[1..])[..cut - size];
        assert EncodeRecord(fields)[..cut] == EncodeField(f) + rest;
        FieldDecodes(f, rest, known);
        RecordCut(fields[1..], cut - size, known[f.key := f.value]);
        assert f.key in known[f.key := f.value];
      }
    }
  }

  lemma FirstCutNotQuiet(f: Field)
    ensures !QuietInField(f, 0)
  {
  }

  /** The cuts of a stream the reader does not report: between records, or at the quiet points of a binary field. */
  predicate QuietCut(records: seq<seq<Field>>, cut: nat) {
    if records == [] then true
    else if cut < |EncodeRecord(records[0])| then QuietInRecord(records[0], cut, true)
    else QuietCut(records[1..], cut - |EncodeRecord(records[0])|)
  }

  lemma DrainOne(s: Bytes, fields: Fields, rest: Bytes)
    requires Decode(s, map[]) == Complete(fields, rest)
    ensures Drain(s) == ([fields] + Drain(rest).0, Drain(rest).1)
  {
    DecodeShrinks(s, map[]);
  }

  lemma DrainNone(s: Bytes)
    requires !Decode(s, map[]).Complete?
    ensures Drain(s) == ([], Decode(s, map[]).Truncated? || Decode(s, map[]).Oversize?)
  {
  }

  /** A truncated stream yields a prefix of the records, and no error exactly when the cut is quiet. */
  lemma {:induction false} TruncationYieldsPrefix(records: seq<seq<Field>>, cut: nat)
    requires forall k | 0 <= k < |records| :: AllWritable(records[k])
    requires cut <= |EncodeAll(records)|
    ensures var drained := Drain(EncodeAll(records)[..cut]);
      drained.0 <= CollectAll(records) && (!drained.1 <==> QuietCut(records, cut))
  {
    hide Decode, EncodeRecord, Collect, Drain, AllWritable, QuietInRecord;
    if records == [] {
      LineCut([], map[]);
      DrainNone([]);
    } else {
      var size := |EncodeRecord(records[0])|;
      if cut < size {
        assert EncodeAll(records)[..cut] == EncodeRecord(records[0])[..cut];
        RecordCut(records[0], cut, map[]);
        DrainNone(EncodeAll(records)[..cut]);
      } else {
        var rest := EncodeAll(records[1..])[..cut - size];
        assert EncodeAll(records)[..cut] == EncodeRecord(records[0]) + rest;
        RecordDecodes(records[0], rest, map[]);
        DrainOne(EncodeAll(records)[..cut], Collect(records[0], map[]), rest);
        TruncationYieldsPrefix(records[1..], cut - size);
        assert CollectAll(records) == [Collect(records[0], map[])] + CollectAll(records[1..]);
      }
    }
  }

  /** A stream cut after a binary field's length ends the upload without an error although a record is missing. */
  lemma UnreportedTruncation()
    ensures exists records, cut: nat ::
      && (forall k | 0 <= k < |records| :: AllWritable(records[k])) && 0 < cut < |EncodeAll(records)|
      && |records| == 1 && Drain(EncodeAll(records)[..cut]) == ([], false)
  {
    hide Decode, Drain, LittleEndian;
    var f := Field([65], [NEWLINE]);
    assert ControlByte(f.value[0]) && NeedsBinary(f.value);
    var records := [[f]];
    assert AllWritable(records[0]) && records[0][1..] == [] && records[1..] == [];
    assert EncodeFields(records[0]) == EncodeField(f) + EncodeFields([]);
    assert EncodeAll(records) == EncodeRecord(records[0]) + EncodeAll([]);
    assert EncodeAll(records) == EncodeField(f) + [NEWLINE];
    assert |EncodeField(f)| == 12;
    assert EncodeAll(records)[..10] == EncodeField(f)[..10];
    FieldCut(f, 10, map[]);
    DrainNone(EncodeAll(records)[..10]);
  }
}
