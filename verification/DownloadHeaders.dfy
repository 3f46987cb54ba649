/** The header values the self-update download relies on: entity tags, content ranges and retry delays. */
module DownloadHeaders {
  import opened Text
  import opened Wrappers

  const MAX_BYTES: int := 64 * 1024 * 1024
  const MAX_WIRE_BYTES: int := MAX_BYTES + 1024 * 1024
  const INT64_LIMIT: int := 0x8000_0000_0000_0000

  // ---- Entity tags ----

  /** etagc of RFC 9110, section 8.8.3: %x21 / %x23-7E / obs-text. */
  predicate EtagChar(ch: char) { ch == '!' || '#' <= ch <= '~' || ch >= '\U{80}' }

  predicate EtagChars(s: string) { forall k | 0 <= k < |s| :: EtagChar(s[k]) }

  /** A strong entity tag: a quoted opaque tag without the weakness prefix. */
  predicate Strong(value: string) {
    |value| >= 2 && value[0] == '"' && value[|value| - 1] == '"' && EtagChars(value[1..|value| - 1])
  }

  /** strongUpdateETag. */
  method StrongUpdateETag(value: string) returns (strong: bool)
    ensures strong <==> Strong(value)
  {
    if |value| < 2 || value[0] != '"' || value[|value| - 1] != '"' {
      return false;
    }
    var inner := value[1..|value| - 1];
    var i := 0;
    while i < |inner|
      invariant 0 <= i <= |inner| && EtagChars(inner[..i])
    {
      var ch := inner[i];
      if ch < '\U{21}' || ch == '"' || ch == '\U{7f}' {
        assert !EtagChar(inner[i]);
        return false;
      }
      i := i + 1;
    }
    assert inner[..|inner|] == inner;
    return true;
  }

  /** Exactly the quoted opaque tags are strong. */
  lemma StrongIff(value: string)
    ensures Strong(value) <==> exists tag :: value == ['"'] + tag + ['"'] && EtagChars(tag)
  {
    if Strong(value) {
      var tag := value[1..|value| - 1];
      assert value == ['"'] + tag + ['"'];
    }
    if exists tag :: value == ['"'] + tag + ['"'] && EtagChars(tag) {
      var tag :| value == ['"'] + tag + ['"'] && EtagChars(tag);
      assert value[1..|value| - 1] == tag;
    }
  }

  // ---- Decimal integers, as strconv.ParseInt(s, 10, 64) reads them ----

  predicate Digit(ch: char) { '0' <= ch <= '9' }

  predicate Digits(s: string) { s != "" && forall k | 0 <= k < |s| :: Digit(s[k]) }

  function Value(s: string): (v: int)
    requires forall k | 0 <= k < |s| :: Digit(s[k])
    ensures v >= 0
  {
    if s == "" then 0
    else
      assert Digit(s[|s| - 1]);
      10 * Value(s[..|s| - 1]) + (s[|s| - 1] as int - '0' as int)
  }

  /** An optional sign, digits, and a value that fits 64 bits. */
  function ParseInt(s: string): Option<int> {
    if s == "" then None
    else
      var negative := s[0] == '-';
      var digits := if s[0] == '-' || s[0] == '+' then s[1..] else s;
      if !Digits(digits) then None
      else
        var value := if negative then -Value(digits) else Value(digits);
        if -INT64_LIMIT <= value < INT64_LIMIT then Some(value) else None
  }

  function Decimal(n: nat): (s: string)
    ensures Digits(s)
  {
    if n < 10 then [('0' as int + n) as char] else Decimal(n / 10) + [('0' as int + n % 10) as char]
  }

  lemma {:induction false} DecimalValue(n: nat)
    ensures Value(Decimal(n)) == n
  {
    var s := Decimal(n);
    if n < 10 {
      assert s[..|s| - 1] == "";
    } else {
      DecimalValue(n / 10);
      assert s[..|s| - 1] == Decimal(n / 10);
    }
  }

  lemma ParseDecimal(n: nat)
    requires n < INT64_LIMIT
    ensures ParseInt(Decimal(n)) == Some(n)
  {
    DecimalValue(n);
    assert Digit(Decimal(n)[0]);
  }

  // ---- Content-Range ----

  datatype Range = Range(start: int, end: int, total: int)

  predicate ValidRange(r: Range) { 0 <= r.start <= r.end < r.total <= MAX_WIRE_BYTES }

  const PREFIX: string := "bytes "

  /** parseUpdateContentRange; None when the result is not valid. */
  function ParseContentRange(value: string): (r: Option<Range>)
    ensures r.Some? ==> ValidRange(r.value)
  {
    if |value| < |PREFIX| || value[..|PREFIX|] != PREFIX then None
    else
      var parts := Split(value[|PREFIX|..], '/');
      if |parts| != 2 then None
      else
        var bounds := Split(parts[0], '-');
        if |bounds| != 2 then None
        else
          var start, end, total := ParseInt(bounds[0]), ParseInt(bounds[1]), ParseInt(parts[1]);
          if start.None? || end.None? || total.None? then None
          else
            var range := Range(start.value, end.value, total.value);
            if ValidRange(range) then Some(range) else None
  }

  /** The form of RFC 9110, section 14.4. */
  function FormatContentRange(r: Range): string
    requires ValidRange(r)
  {
    PREFIX + (Decimal(r.start) + "-" + Decimal(r.end) + "/" + Decimal(r.total))
  }

  /** Every range a server may name is read back exactly. */
  lemma ContentRangeRoundTrip(r: Range)
    requires ValidRange(r)
    ensures ParseContentRange(FormatContentRange(r)) == Some(r)
  {
    var s, e, t := Decimal(r.start), Decimal(r.end), Decimal(r.total);
    var bounds := s + "-" + e;
    var text := FormatContentRange(r);
    assert text[..|PREFIX|] == PREFIX && text[|PREFIX|..] == bounds + ['/'] + t by {
      assert s + "-" + e + "/" + t == bounds + ['/'] + t;
    }
    assert '/' !in s && '/' !in e && '/' !in t && '-' !in s && '-' !in e by {
      NoSeparators(s);
      NoSeparators(e);
      NoSeparators(t);
    }
    SplitLast(bounds, '/', t);
    SplitNone(bounds, '/');
    SplitLast(s, '-', e);
    SplitNone(s, '-');
    ParseDecimal(r.start);
    ParseDecimal(r.end);
    ParseDecimal(r.total);
  }

  lemma NoSeparators(s: string)
    requires Digits(s)
    ensures '/' !in s && '-' !in s
  {
  }

  // ---- Retry-After ----

  const SECOND: int := 1_000_000_000
  const PATIENCE: int := 300 * SECOND

  function Clamp(d: int): int { if d < 0 then 0 else if d < PATIENCE + SECOND then d else PATIENCE + SECOND }

  /** updateRetryAfter: delay-seconds, or a date that lies `untilDate` nanoseconds ahead when the value is one. */
  function RetryAfter(value: string, untilDate: Option<int>): int {
    var seconds := ParseInt(value);
    if seconds.Some? then
      if seconds.value <= 0 then 0 else (if seconds.value < 301 then seconds.value else 301) * SECOND
    else if untilDate.Some? then Clamp(untilDate.value)
    else 0
  }

  /** The delay asked for, without a cap. */
  function Wanted(value: string, untilDate: Option<int>): int {
    var wanted := if ParseInt(value).Some? then ParseInt(value).value * SECOND
                  else if untilDate.Some? then untilDate.value else 0;
    if wanted < 0 then 0 else wanted
  }

  /** Up to five minutes the delay is exactly what was asked for, and beyond that it is one second more. */
  lemma DelayExact(value: string, untilDate: Option<int>)
    ensures Wanted(value, untilDate) <= 300 * SECOND ==> RetryAfter(value, untilDate) == Wanted(value, untilDate)
    ensures Wanted(value, untilDate) > 300 * SECOND ==> 300 * SECOND < RetryAfter(value, untilDate) <= 301 * SECOND
  {
  }

  /** A plain number of seconds is read as such. */
  lemma SecondsRead(n: nat, untilDate: Option<int>)
    requires n <= 300
    ensures RetryAfter(Decimal(n), untilDate) == n * SECOND
  {
    ParseDecimal(n);
  }

  /** Capping a delay never hides that it exceeds what the caller would wait. */
  lemma CapKeepsImpatience(value: string, untilDate: Option<int>)
    ensures 0 <= RetryAfter(value, untilDate) <= PATIENCE + SECOND
    ensures ParseInt(value).Some? ==>
              (RetryAfter(value, untilDate) <= PATIENCE <==> ParseInt(value).value * SECOND <= PATIENCE)
    ensures ParseInt(value).None? && untilDate.Some? ==>
              (RetryAfter(value, untilDate) <= PATIENCE <==> untilDate.value <= PATIENCE)
  {
  }
}
