/** String escapes of JSON texts: what the v2 scalar checker accepts and how escapes are made canonical. */
module JsonEscapes {
  import opened Octets
  import opened Wrappers

  const QUOTE: Byte := 0x22
  const BACKSLASH: Byte := 0x5C
  const LETTER_U: Byte := 0x75

  // ---- Hexadecimal escapes ----

  function HexDigit(b: Byte): Option<nat> {
    if 0x30 <= b <= 0x39 then Some(b - 0x30)
    else if 0x61 <= b <= 0x66 then Some(b - 0x61 + 10)
    else if 0x41 <= b <= 0x46 then Some(b - 0x41 + 10)
    else None
  }

  /** The value of n hexadecimal digits at the head. */
  function HexValue(s: Bytes, n: nat): Option<nat> {
    if |s| < n then None
    else if n == 0 then Some(0)
    else
      var high, low := HexValue(s, n - 1), HexDigit(s[n - 1]);
      if high.None? || low.None? then None else Some(16 * high.value + low.value)
  }

  function Hex4(s: Bytes): Option<nat> { HexValue(s, 4) }

  lemma {:induction false} HexValueLocal(s: Bytes, t: Bytes, n: nat)
    requires n <= |s| && n <= |t| && s[..n] == t[..n]
    ensures HexValue(s, n) == HexValue(t, n)
  {
    if n > 0 {
      assert s[..n - 1] == s[..n][..n - 1] && t[..n - 1] == t[..n][..n - 1];
      assert s[n - 1] == s[..n][n - 1] && t[n - 1] == t[..n][n - 1];
      HexValueLocal(s, t, n - 1);
    }
  }

  /** hex4. */
  method ReadHex4(data: Bytes) returns (value: Option<nat>)
    ensures value == Hex4(data)
  {
    if |data| < 4 {
      return None;
    }
    var v := 0;
    var i := 0;
    while i < 4
      invariant 0 <= i <= 4 && HexValue(data, i) == Some(v)
    {
      var digit := HexDigit(data[i]);
      if digit.None? {
        HexStops(data, i + 1, 4);
        return None;
      }
      v := 16 * v + digit.value;
      i := i + 1;
    }
    return Some(v);
  }

  lemma {:induction false} HexStops(s: Bytes, n: nat, m: nat)
    requires n <= m <= |s| && HexValue(s, n).None?
    ensures HexValue(s, m).None?
  {
    if n < m { HexStops(s, n, m - 1); }
  }

  predicate HighSurrogate(code: nat) { 0xD800 <= code <= 0xDBFF }

  predicate LowSurrogate(code: nat) { 0xDC00 <= code <= 0xDFFF }

  /** The code of a \u escape at the head. */
  function Escape(s: Bytes): Option<nat> {
    if |s| >= 2 && s[0] == BACKSLASH && s[1] == LETTER_U then Hex4(s[2..]) else None
  }

  // ---- UTF-8, section 4 of RFC 3629 ----

  datatype Utf8State = Start | Need1 | Need2 | Need3 | NeedE0 | NeedED | NeedF0 | NeedF4 | Reject

  function Utf8Step(q: Utf8State, b: Byte): Utf8State {
    var tail := 0x80 <= b <= 0xBF;
    match q
    case Start =>
      if b < 0x80 then Start
      else if 0xC2 <= b <= 0xDF then Need1
      else if b == 0xE0 then NeedE0
      else if b == 0xED then NeedED
      else if 0xE1 <= b <= 0xEF then Need2
      else if b == 0xF0 then NeedF0
      else if 0xF1 <= b <= 0xF3 then Need3
      else if b == 0xF4 then NeedF4
      else Reject
    case Need1 => if tail then Start else Reject
    case Need2 => if tail then Need1 else Reject
    case Need3 => if tail then Need2 else Reject
    case NeedE0 => if 0xA0 <= b <= 0xBF then Need1 else Reject
    case NeedED => if 0x80 <= b <= 0x9F then Need1 else Reject
    case NeedF0 => if 0x90 <= b <= 0xBF then Need2 else Reject
    case NeedF4 => if 0x80 <= b <= 0x8F then Need2 else Reject
    case Reject => Reject
  }

  function Utf8Run(q: Utf8State, s: Bytes): Utf8State
    decreases s
  {
    if s == [] then q else Utf8Run(Utf8Step(q, s[0]), s[1..])
  }

  /** utf8.Valid. */
  predicate Utf8Valid(s: Bytes) { Utf8Run(Start, s).Start? }

  lemma {:induction false} Utf8RunConcat(q: Utf8State, a: Bytes, b: Bytes)
    ensures Utf8Run(q, a + b) == Utf8Run(Utf8Run(q, a), b)
    decreases a
  {
    if a == [] {
      assert a + b == b;
    } else {
      assert (a + b)[1..] == a[1..] + b;
      Utf8RunConcat(Utf8Step(q, a[0]), a[1..], b);
    }
  }

  /** The UTF-8 form of a code below 0x10000. */
  function EncodeRune(code: nat): Bytes
    requires code < 0x10000
  {
    if code < 0x80 then [code]
    else if code < 0x800 then [0xC0 + code / 64, 0x80 + code % 64]
    else [0xE0 + code / 4096, 0x80 + code / 64 % 64, 0x80 + code % 64]
  }

  /** The UTF-8 form of a surrogate pair's code point. */
  function EncodePair(high: nat, low: nat): Bytes
    requires HighSurrogate(high) && LowSurrogate(low)
  {
    var code := 0x10000 + (high - 0xD800) * 1024 + (low - 0xDC00);
    [0xF0 + code / 262144, 0x80 + code / 4096 % 64, 0x80 + code / 64 % 64, 0x80 + code % 64]
  }

  // ---- What a text means ----

  /**
   * A byte of the text outside strings, a byte of a string's value, a two-byte escape of no meaning, or something no
   * JSON string may hold: half a surrogate pair, a raw control byte, or a broken escape or missing end.
   */
  datatype Token =
    | Structure(b: Byte) | Content(c: Byte) | Unknown(u: Byte) | Lone(code: nat) | Control(raw: Byte) | Broken

  function Contents(s: Bytes): seq<Token> { seq(|s|, i requires 0 <= i < |s| => Content(s[i])) }

  /** The two-character escapes of RFC 8259, section 7. */
  function SimpleEscape(b: Byte): Token {
    if b == QUOTE || b == BACKSLASH || b == 0x2F then Content(b)
    else if b == 0x62 then Content(0x08)
    else if b == 0x66 then Content(0x0C)
    else if b == 0x6E then Content(0x0A)
    else if b == 0x72 then Content(0x0D)
    else if b == 0x74 then Content(0x09)
    else Unknown(b)
  }

  /** The text with every string replaced by its value. */
  function Meaning(data: Bytes, inString: bool): seq<Token>
    decreases |data|
  {
    if data == [] then (if inString then [Broken] else [])
    else if !inString || data[0] == QUOTE then
      [Structure(data[0])] + Meaning(data[1..], !inString && data[0] == QUOTE)
    else if data[0] != BACKSLASH then
      [if data[0] < 0x20 then Control(data[0]) else Content(data[0])] + Meaning(data[1..], true)
    else if |data| < 2 then [Broken]
    else if data[1] != LETTER_U then [SimpleEscape(data[1])] + Meaning(data[2..], true)
    else
      var code := Escape(data);
      if code.None? || code.value >= 0x10000 then [Broken]
      else
        var next := Escape(data[6..]);
        if HighSurrogate(code.value) && next.Some? && LowSurrogate(next.value) then
          Contents(EncodePair(code.value, next.value)) + Meaning(data[12..], true)
        else if HighSurrogate(code.value) || LowSurrogate(code.value) then [Lone(code.value)] + Meaning(data[6..], true)
        else Contents(EncodeRune(code.value)) + Meaning(data[6..], true)
  }
}
