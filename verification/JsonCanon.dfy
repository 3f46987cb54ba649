/** validJSONScalars and canonicalizeJSONStringEscapes. */
module JsonCanon {
  import opened Octets
  import opened Wrappers
  import opened JsonEscapes

  // ---- The scalar checker ----

  /** Strings are closed, hold no control bytes and no broken or unpaired \u escape. */
  predicate Accepts(data: Bytes, inString: bool)
    decreases |data|
  {
    if data == [] then !inString
    else if !inString || data[0] == QUOTE then Accepts(data[1..], !inString && data[0] == QUOTE)
    else if data[0] != BACKSLASH then data[0] >= 0x20 && Accepts(data[1..], true)
    else if |data| < 2 then false
    else if data[1] != LETTER_U then Accepts(data[2..], true)
    else
      var code := Escape(data);
      if code.None? || LowSurrogate(code.value) then false
      else if HighSurrogate(code.value) then
        Escape(data[6..]).Some? && LowSurrogate(Escape(data[6..]).value) && Accepts(data[12..], true)
      else Accepts(data[6..], true)
  }

  /** Nothing in the text is what no JSON string may hold. */
  predicate Readable(m: seq<Token>) { forall k | 0 <= k < |m| :: !m[k].Lone? && !m[k].Control? && !m[k].Broken? }

  lemma ReadableConcat(a: seq<Token>, b: seq<Token>)
    ensures Readable(a + b) <==> Readable(a) && Readable(b)
  {
    if Readable(a + b) {
      assert forall k | 0 <= k < |a| :: a[k] == (a + b)[k];
      assert forall k | 0 <= k < |b| :: b[k] == (a + b)[|a| + k];
    }
  }

  /** The checker lets through exactly what can be read. */
  lemma {:induction false} AcceptsReadable(data: Bytes, inString: bool)
    ensures Accepts(data, inString) <==> Readable(Meaning(data, inString))
    decreases |data|
  {
    if data == [] {
      assert inString ==> Meaning(data, inString)[0] == Broken;
    } else if !inString || data[0] == QUOTE {
      var now := !inString && data[0] == QUOTE;
      AcceptsReadable(data[1..], now);
      ReadableConcat([Structure(data[0])], Meaning(data[1..], now));
    } else if data[0] != BACKSLASH {
      AcceptsReadable(data[1..], true);
      var head := if data[0] < 0x20 then Control(data[0]) else Content(data[0]);
      ReadableConcat([head], Meaning(data[1..], true));
      assert [head][0] == head;
    } else if |data| < 2 {
      assert [Broken][0].Broken?;
    } else if data[1] != LETTER_U {
      AcceptsReadable(data[2..], true);
      ReadableConcat([SimpleEscape(data[1])], Meaning(data[2..], true));
    } else {
      EscapeReadable(data);
    }
  }

  lemma {:induction false} EscapeReadable(data: Bytes)
    requires |data| >= 2 && data[0] == BACKSLASH && data[1] == LETTER_U
    ensures Accepts(data, true) <==> Readable(Meaning(data, true))
    decreases |data|, 0
  {
    var code := Escape(data);
    if code.None? {
      assert [Broken][0].Broken?;
    } else {
      HexBound(data[2..], 4);
      var next := Escape(data[6..]);
      if HighSurrogate(code.value) && next.Some? && LowSurrogate(next.value) {
        AcceptsReadable(data[12..], true);
        ReadableConcat(Contents(EncodePair(code.value, next.value)), Meaning(data[12..], true));
      } else if HighSurrogate(code.value) || LowSurrogate(code.value) {
        ReadableConcat([Lone(code.value)], Meaning(data[6..], true));
        assert [Lone(code.value)][0].Lone?;
      } else {
        AcceptsReadable(data[6..], true);
        ReadableConcat(Contents(EncodeRune(code.value)), Meaning(data[6..], true));
      }
    }
  }

  predicate ScalarsValid(data: Bytes) { Utf8Valid(data) && Accepts(data, false) }

  /** utf8.DecodeRune's size: the rune at the head, or one byte when it is malformed. */
  function RuneSize(s: Bytes): (size: nat)
    requires s != []
    ensures 1 <= size <= |s| && forall k | 1 <= k < size :: 0x80 <= s[k] <= 0xBF
  {
    var q1 := Utf8Step(Start, s[0]);
    if q1.Start? || q1.Reject? || |s| < 2 then 1
    else
      var q2 := Utf8Step(q1, s[1]);
      if q2.Start? then 2
      else if q2.Reject? || |s| < 3 then 1
      else
        var q3 := Utf8Step(q2, s[2]);
        if q3.Start? then 3
        else if q3.Reject? || |s| < 4 then 1
        else if Utf8Step(q3, s[3]).Start? then 4
        else 1
  }

  /** Skipping a rune is skipping its bytes. */
  lemma {:induction false} SkipRune(s: Bytes, n: nat)
    requires 1 <= n <= |s| && s[0] >= 0x20 && s[0] != QUOTE && s[0] != BACKSLASH
    requires forall k | 1 <= k < n :: 0x80 <= s[k] <= 0xBF
    ensures Accepts(s, true) == Accepts(s[n..], true)
    decreases n
  {
    if n > 1 {
      SkipRune(s[1..], n - 1);
      assert s[1..][n - 1..] == s[n..];
    }
  }

  /** validJSONScalars. */
  method ValidJSONScalars(data: Bytes) returns (ok: bool)
    ensures ok <==> ScalarsValid(data)
  {
    if !Utf8Valid(data) {
      return false;
    }
    var inString := false;
    var i := 0;
    assert data[0..] == data;
    while i < |data|
      invariant 0 <= i <= |data| && Accepts(data, false) == Accepts(data[i..], inString)
    {
      ghost var left := data[i..];
      assert forall k | 0 <= k <= |left| :: left[k..] == data[i + k..];
      var b := data[i];
      if !inString {
        inString := b == QUOTE;
        i := i + 1;
      } else if b == QUOTE {
        inString := false;
        i := i + 1;
      } else if b != BACKSLASH {
        if b < 0x20 {
          return false;
        }
        SkipRune(left, RuneSize(left));
        i := i + RuneSize(data[i..]);
      } else if i + 1 >= |data| {
        return false;
      } else if data[i + 1] != LETTER_U {
        i := i + 2;
      } else {
        var ok4, size := CheckEscape(data[i..]);
        if !ok4 {
          return false;
        }
        i := i + size;
      }
    }
    return !inString;
  }

  /** The \u branch: one escape, or a surrogate pair of them. */
  method CheckEscape(left: Bytes) returns (ok: bool, size: nat)
    requires |left| >= 2 && left[0] == BACKSLASH && left[1] == LETTER_U
    ensures ok ==> size <= |left| && size > 0 && Accepts(left, true) == Accepts(left[size..], true)
    ensures !ok ==> !Accepts(left, true)
  {
    size := 6;
    var first := ReadHex4(left[2..]);
    if first.None? {
      return false, size;
    }
    assert Escape(left) == first;
    if HighSurrogate(first.value) {
      if 12 > |left| || left[6] != BACKSLASH || left[7] != LETTER_U {
        return false, size;
      }
      var second := ReadHex4(left[8..]);
      assert left[6..][2..] == left[8..];
      if second.None? || !LowSurrogate(second.value) {
        return false, size;
      }
      return true, 12;
    }
    return !LowSurrogate(first.value), size;
  }

  // ---- Canonical escapes ----

  /**
   * The five escapes the canonical form writes as plain characters: less, greater, ampersand and the line
   * separators.
   */
  predicate Rewritten(code: nat) {
    code == 0x3C || code == 0x3E || code == 0x26 || code == 0x2028 || code == 0x2029
  }

  /** canonicalizeJSONStringEscapes on the rest of a text. */
  function Canon(data: Bytes, inString: bool): Option<Bytes>
    decreases |data|
  {
    if data == [] then (if inString then None else Some([]))
    else if !inString || data[0] == QUOTE then Prepend(data[..1], Canon(data[1..], !inString && data[0] == QUOTE))
    else if data[0] != BACKSLASH then Prepend(data[..1], Canon(data[1..], true))
    else if |data| < 2 then None
    else if data[1] != LETTER_U then Prepend(data[..2], Canon(data[2..], true))
    else
      var code := Escape(data);
      if code.None? then None
      else if Rewritten(code.value) then Prepend(EncodeRune(code.value), Canon(data[6..], true))
      else Prepend(data[..6], Canon(data[6..], true))
  }

  function Prepend(a: Bytes, b: Option<Bytes>): Option<Bytes> { if b.None? then None else Some(a + b.value) }

  /** canonicalizeJSONStringEscapes. */
  method CanonicalizeEscapes(data: Bytes) returns (result: Option<Bytes>)
    ensures result == Canon(data, false)
  {
    var out: Bytes := [];
    var inString := false;
    var i := 0;
    assert data[0..] == data && Canon(data, false) == Prepend([], Canon(data, false)) by {
      PrependNothing(Canon(data, false));
    }
    while i < |data|
      invariant 0 <= i <= |data| && Canon(data, false) == Prepend(out, Canon(data[i..], inString))
    {
      ghost var left := data[i..];
      assert forall k | 0 <= k <= |left| :: left[k..] == data[i + k..];
      var b := data[i];
      if !inString || b == QUOTE || b != BACKSLASH {
        var now := if !inString then b == QUOTE else b != QUOTE;
        PrependTwice(out, left[..1], Canon(left[1..], now));
        assert left[..1] == [b];
        out := out + [b];
        inString := now;
        i := i + 1;
      } else if i + 1 >= |data| {
        return None;
      } else if data[i + 1] != LETTER_U {
        PrependTwice(out, left[..2], Canon(left[2..], true));
        assert left[..2] == data[i..i + 2];
        out := out + data[i..i + 2];
        i := i + 2;
      } else {
        var code := ReadHex4(data[i + 2..]);
        assert left[2..] == data[i + 2..] && Escape(left) == code;
        if code.None? {
          return None;
        }
        assert left[..6] == data[i..i + 6];
        ghost var piece := if Rewritten(code.value) then EncodeRune(code.value) else left[..6];
        PrependTwice(out, piece, Canon(left[6..], true));
        if Rewritten(code.value) {
          out := out + EncodeRune(code.value);
        } else {
          out := out + data[i..i + 6];
        }
        i := i + 6;
      }
    }
    assert data[i..] == [] && out + [] == out;
    if inString {
      return None;
    }
    return Some(out);
  }

  lemma PrependNothing(b: Option<Bytes>)
    ensures Prepend([], b) == b
  {
    if b.Some? { assert [] + b.value == b.value; }
  }

  lemma PrependTwice(a: Bytes, b: Bytes, c: Option<Bytes>)
    ensures Prepend(a, Prepend(b, c)) == Prepend(a + b, c)
  {
    if c.Some? { assert a + (b + c.value) == a + b + c.value; }
  }

  // ---- What canonicalizing keeps ----

  /** No string holds one of the five escapes. */
  predicate Clean(data: Bytes, inString: bool)
    decreases |data|
  {
    if data == [] then true
    else if !inString || data[0] == QUOTE then Clean(data[1..], !inString && data[0] == QUOTE)
    else if data[0] != BACKSLASH then Clean(data[1..], true)
    else if |data| < 2 then true
    else if data[1] != LETTER_U then Clean(data[2..], true)
    else if Escape(data).None? then true
    else !Rewritten(Escape(data).value) && Clean(data[6..], true)
  }

  /** One unit of a text that canonicalizing copies: a byte, a two-byte escape, a kept \u escape or a surrogate pair. */
  predicate Unit(piece: Bytes, inString: bool, now: bool) {
    || (|piece| == 1 && !inString && now == (piece[0] == QUOTE))
    || (|piece| == 1 && inString && piece[0] == QUOTE && !now)
    || (inString && now && |piece| == 1 && piece[0] >= 0x20 && piece[0] != QUOTE && piece[0] != BACKSLASH)
    || (inString && now && |piece| == 2 && piece[0] == BACKSLASH && piece[1] != LETTER_U)
    || (inString && now && |piece| == 6 && Escape(piece).Some? && KeptCode(Escape(piece).value))
    || (inString && now && |piece| == 12 && Paired(piece))
  }

  predicate KeptCode(code: nat) { code < 0x10000 && !HighSurrogate(code) && !LowSurrogate(code) && !Rewritten(code) }

  predicate Paired(piece: Bytes)
    requires |piece| == 12
  {
    && Escape(piece).Some? && HighSurrogate(Escape(piece).value)
    && Escape(piece[6..]).Some? && LowSurrogate(Escape(piece[6..]).value)
  }

  lemma EscapeLocal(piece: Bytes, rest: Bytes)
    requires |piece| >= 6
    ensures Escape(piece + rest) == Escape(piece)
  {
    assert (piece + rest)[2..][..4] == piece[2..][..4];
    HexValueLocal((piece + rest)[2..], piece[2..], 4);
  }

  /** What a unit contributes. */
  function UnitMeaning(piece: Bytes, inString: bool): seq<Token>
    requires exists now :: Unit(piece, inString, now)
  {
    if !inString || piece[0] == QUOTE then [Structure(piece[0])]
    else if |piece| == 1 then [Content(piece[0])]
    else if |piece| == 2 then [SimpleEscape(piece[1])]
    else if |piece| == 6 then Contents(EncodeRune(Escape(piece).value))
    else Contents(EncodePair(Escape(piece).value, Escape(piece[6..]).value))
  }

  /** A unit is read the same whatever follows it. */
  lemma UnitThen(piece: Bytes, inString: bool, now: bool, rest: Bytes)
    requires Unit(piece, inString, now)
    ensures Accepts(piece + rest, inString) == Accepts(rest, now)
    ensures Clean(piece + rest, inString) == Clean(rest, now)
    ensures Canon(piece + rest, inString) == Prepend(piece, Canon(rest, now))
    ensures Meaning(piece + rest, inString) == UnitMeaning(piece, inString) + Meaning(rest, now)
  {
    var s := piece + rest;
    assert s[..|piece|] == piece && s[|piece|..] == rest;
    if |piece| == 6 {
      EscapeLocal(piece, rest);
    } else if |piece| == 12 {
      PairThen(piece, rest);
    }
  }

  lemma PairThen(piece: Bytes, rest: Bytes)
    requires |piece| == 12 && Paired(piece)
    ensures Accepts(piece + rest, true) == Accepts(rest, true)
    ensures Clean(piece + rest, true) == Clean(rest, true)
    ensures Canon(piece + rest, true) == Prepend(piece, Canon(rest, true))
    ensures Meaning(piece + rest, true)
            == Contents(EncodePair(Escape(piece).value, Escape(piece[6..]).value)) + Meaning(rest, true)
  {
    hide HexValue;
    var s := piece + rest;
    EscapeLocal(piece, rest);
    assert s[6..] == piece[6..] + rest;
    EscapeLocal(piece[6..], rest);
    assert s[12..] == rest && s[6..][6..] == rest;
    assert s[..6] + s[6..][..6] == piece;
    PrependTwice(s[..6], s[6..][..6], Canon(rest, true));
  }

  /** The head of an accepted text: a unit that is copied, or one of the five escapes. */
  lemma HeadOf(data: Bytes, inString: bool) returns (n: nat, now: bool)
    requires Accepts(data, inString) && data != []
    ensures 1 <= n <= |data|
    ensures Unit(data[..n], inString, now)
            || (n == 6 && inString && now && Escape(data).Some? && Rewritten(Escape(data).value))
  {
    now := true;
    if !inString || data[0] == QUOTE {
      n, now := 1, !inString && data[0] == QUOTE;
    } else if data[0] != BACKSLASH {
      n := 1;
    } else if data[1] != LETTER_U {
      n := 2;
    } else {
      var code := Escape(data).value;
      HexBound(data[2..], 4);
      n := if HighSurrogate(code) then 12 else 6;
      assert data[..n] + data[n..] == data && data[..n][6..] + data[n..] == data[6..];
      EscapeLocal(data[..n], data[n..]);
      if n == 12 { EscapeLocal(data[..12][6..], data[12..]); }
    }
  }

  lemma {:induction false} HexBound(s: Bytes, n: nat)
    requires n <= 4 && HexValue(s, n).Some?
    ensures HexValue(s, n).value <
                (match n case 0 => 1 case 1 => 0x10 case 2 => 0x100 case 3 => 0x1000 case _ => 0x10000)
  {
    if n > 0 { HexBound(s, n - 1); }
  }

  /** A plain byte inside a string is read as content. */
  lemma ByteThen(b: Byte, rest: Bytes)
    requires b >= 0x20 && b != QUOTE && b != BACKSLASH
    ensures Accepts([b] + rest, true) == Accepts(rest, true) && Clean([b] + rest, true) == Clean(rest, true)
    ensures Canon([b] + rest, true) == Prepend([b], Canon(rest, true))
    ensures Meaning([b] + rest, true) == [Content(b)] + Meaning(rest, true)
  {
    UnitThen([b], true, true, rest);
  }

  /** The plain form of a rewritten escape is read as the same content. */
  lemma PlainThen(code: nat, rest: Bytes)
    requires Rewritten(code)
    ensures var piece := EncodeRune(code);
      && Accepts(piece + rest, true) == Accepts(rest, true) && Clean(piece + rest, true) == Clean(rest, true)
      && Canon(piece + rest, true) == Prepend(piece, Canon(rest, true))
      && Meaning(piece + rest, true) == Contents(piece) + Meaning(rest, true)
  {
    hide Accepts, Clean, Canon, Meaning, Prepend;
    var piece := EncodeRune(code);
    if |piece| == 1 {
      assert piece == [piece[0]];
      ByteThen(piece[0], rest);
      assert Contents(piece) == [Content(piece[0])];
    } else {
      var a, b, c := piece[0], piece[1], piece[2];
      ByteThen(c, rest);
      ByteThen(b, [c] + rest);
      ByteThen(a, [b] + ([c] + rest));
      PrependTwice([b], [c], Canon(rest, true));
      PrependTwice([a], [b] + [c], Canon(rest, true));
      ThreeBytes(piece, rest);
    }
  }

  lemma ThreeBytes(piece: Bytes, rest: Bytes)
    requires |piece| == 3
    ensures piece + rest == [piece[0]] + ([piece[1]] + ([piece[2]] + rest))
    ensures [piece[0]] + ([piece[1]] + [piece[2]]) == piece
    ensures forall m: seq<Token> ::
              [Content(piece[0])] + ([Content(piece[1])] + ([Content(piece[2])] + m)) == Contents(piece) + m
  {
  }

  /** A rewritten escape is taken off the head. */
  lemma RewrittenHead(data: Bytes)
    requires Escape(data).Some? && Rewritten(Escape(data).value)
    ensures Accepts(data, true) == Accepts(data[6..], true)
    ensures Canon(data, true) == Prepend(EncodeRune(Escape(data).value), Canon(data[6..], true))
    ensures Meaning(data, true) == Contents(EncodeRune(Escape(data).value)) + Meaning(data[6..], true)
  {
  }

  /** In every UTF-8 state the escape and its plain form lead to the same state. */
  lemma SameUtf8(q: Utf8State, data: Bytes, code: nat)
    requires Rewritten(code) && |data| == 6 && Escape(data) == Some(code)
    ensures Utf8Run(q, data) == Utf8Run(q, EncodeRune(code))
  {
    var plain := EncodeRune(code);
    AsciiRun(q, data);
    if |plain| == 1 {
      AsciiRun(q, plain);
    } else {
      var q1 := Utf8Step(q, plain[0]);
      var q2 := Utf8Step(q1, plain[1]);
      assert plain[1..][1..] == plain[2..] && plain[2..][1..] == [];
      assert Utf8Run(q2, plain[2..]) == Utf8Step(q2, plain[2]);
      assert Utf8Run(q1, plain[1..]) == Utf8Run(q2, plain[2..]);
    }
  }

  /** ASCII bytes leave a finished rune finished and break an unfinished one. */
  lemma {:induction false} AsciiRun(q: Utf8State, s: Bytes)
    requires s != [] && (s[0] < 0x80 && (|s| == 1 || (|s| == 6 && Escape(s).Some?)))
    ensures Utf8Run(q, s) == if q.Start? then Start else Reject
  {
    if |s| == 6 {
      HexAscii(s[2..], 4);
      assert forall k | 0 <= k < 6 :: s[k] < 0x80 by { assert forall k | 2 <= k < 6 :: s[k] == s[2..][k - 2]; }
      AllAscii(q, s);
    } else {
      AllAscii(q, s);
    }
  }

  lemma {:induction false} AllAscii(q: Utf8State, s: Bytes)
    requires s != [] && forall k | 0 <= k < |s| :: s[k] < 0x80
    ensures Utf8Run(q, s) == if q.Start? then Start else Reject
    decreases s
  {
    if |s| > 1 { AllAscii(Utf8Step(q, s[0]), s[1..]); } else { assert s[1..] == []; }
  }

  lemma {:induction false} HexAscii(s: Bytes, n: nat)
    requires HexValue(s, n).Some?
    ensures n <= |s| && forall k | 0 <= k < n :: s[k] < 0x80
  {
    if n > 0 { HexAscii(s, n - 1); }
  }

  /** Everything canonicalizing keeps of an accepted text, from any point of it on. */
  ghost predicate Kept(data: Bytes, inString: bool, out: Bytes) {
    && |out| <= |data| && Meaning(out, inString) == Meaning(data, inString)
    && Accepts(out, inString) && Clean(out, inString) && Canon(out, inString) == Some(out)
    && forall q :: Utf8Run(q, out) == Utf8Run(q, data)
  }

  lemma {:induction false} CanonKeeps(data: Bytes, inString: bool)
    requires Accepts(data, inString)
    ensures Canon(data, inString).Some? && Kept(data, inString, Canon(data, inString).value)
    decreases |data|
  {
    if data != [] {
      var n, now := HeadOf(data, inString);
      var piece, rest := data[..n], data[n..];
      assert data == piece + rest;
      if Unit(piece, inString, now) {
        UnitKeeps(piece, rest, inString, now);
      } else {
        PlainKeeps(piece, rest, data);
      }
    }
  }

  lemma UnitKeeps(piece: Bytes, rest: Bytes, inString: bool, now: bool)
    requires Unit(piece, inString, now) && Accepts(piece + rest, inString)
    ensures Canon(piece + rest, inString).Some? && Kept(piece + rest, inString, Canon(piece + rest, inString).value)
    decreases |piece + rest|, 0
  {
    hide Accepts, Clean, Canon, Meaning, UnitMeaning, Utf8Run;
    UnitThen(piece, inString, now, rest);
    CanonKeeps(rest, now);
    var tail := Canon(rest, now).value;
    UnitThen(piece, inString, now, tail);
    forall q ensures Utf8Run(q, piece + tail) == Utf8Run(q, piece + rest) {
      Utf8RunConcat(q, piece, tail);
      Utf8RunConcat(q, piece, rest);
    }
  }

  lemma PlainKeeps(piece: Bytes, rest: Bytes, data: Bytes)
    requires data == piece + rest && |piece| == 6 && Accepts(data, true)
    requires Escape(data).Some? && Rewritten(Escape(data).value)
    ensures Canon(data, true).Some? && Kept(data, true, Canon(data, true).value)
    decreases |data|, 0
  {
    hide Accepts, Clean, Canon, Meaning, Utf8Run, Escape, EncodeRune;
    var code := Escape(data).value;
    RewrittenHead(data);
    assert data[6..] == rest;
    CanonKeeps(rest, true);
    var tail, plain := Canon(rest, true).value, EncodeRune(code);
    PlainThen(code, tail);
    EscapeLocal(piece, rest);
    PlainShort(code);
    forall q ensures Utf8Run(q, plain + tail) == Utf8Run(q, data) {
      SameUtf8(q, piece, code);
      Utf8RunConcat(q, plain, tail);
      Utf8RunConcat(q, piece, rest);
    }
  }

  lemma PlainShort(code: nat)
    requires Rewritten(code)
    ensures |EncodeRune(code)| <= 3
  {
  }

  /**
   * Canonicalizing an accepted text succeeds, keeps its meaning, never lengthens it, leaves none of the five escapes,
   * yields a text that is accepted again, and changes nothing when applied again.
   */
  lemma Canonical(data: Bytes)
    requires ScalarsValid(data)
    ensures Canon(data, false).Some?
    ensures var out := Canon(data, false).value;
      && Meaning(out, false) == Meaning(data, false) && |out| <= |data| && Clean(out, false)
      && ScalarsValid(out) && Canon(out, false) == Some(out)
  {
    CanonKeeps(data, false);
  }

  // ---- Two-byte escapes stay where and what they are ----

  /** The two-byte escapes in strings: where each one's value is in the meaning of the text, and its second byte. */
  function Escaped(data: Bytes, inString: bool, at: nat): seq<(nat, Byte)>
    decreases |data|
  {
    if data == [] then []
    else if !inString || data[0] == QUOTE then Escaped(data[1..], !inString && data[0] == QUOTE, at + 1)
    else if data[0] != BACKSLASH then Escaped(data[1..], true, at + 1)
    else if |data| < 2 then []
    else if data[1] != LETTER_U then [(at, data[1])] + Escaped(data[2..], true, at + 1)
    else
      var code := Escape(data);
      if code.None? || code.value >= 0x10000 then []
      else
        var next := Escape(data[6..]);
        if HighSurrogate(code.value) && next.Some? && LowSurrogate(next.value) then Escaped(data[12..], true, at + 4)
        else if HighSurrogate(code.value) || LowSurrogate(code.value) then Escaped(data[6..], true, at + 1)
        else Escaped(data[6..], true, at + |EncodeRune(code.value)|)
  }

  lemma UnitEscaped(piece: Bytes, inString: bool, now: bool, rest: Bytes, at: nat)
    requires Unit(piece, inString, now)
    ensures Escaped(piece + rest, inString, at)
            == (if |piece| == 2 then [(at, piece[1])] else []) + Escaped(rest, now, at + |UnitMeaning(piece, inString)|)
  {
    var s := piece + rest;
    assert s[..|piece|] == piece && s[|piece|..] == rest;
    if |piece| == 6 {
      EscapeLocal(piece, rest);
    } else if |piece| == 12 {
      EscapeLocal(piece, rest);
      assert s[6..] == piece[6..] + rest;
      EscapeLocal(piece[6..], rest);
    }
  }

  lemma {:induction false} ContentEscaped(plain: Bytes, rest: Bytes, at: nat)
    requires forall k | 0 <= k < |plain| :: plain[k] >= 0x20 && plain[k] != QUOTE && plain[k] != BACKSLASH
    ensures Escaped(plain + rest, true, at) == Escaped(rest, true, at + |plain|)
    decreases |plain|
  {
    if plain == [] {
      assert plain + rest == rest;
    } else {
      assert (plain + rest)[1..] == plain[1..] + rest;
      ContentEscaped(plain[1..], rest, at + 1);
    }
  }

  /**
   * Every two-byte escape of an accepted text, an escaped backslash before the letters of another escape included,
   * is in the canonical text at the same place of the same meaning, and there are no others.
   */
  lemma {:induction false} EscapesStay(data: Bytes, inString: bool, at: nat)
    requires Accepts(data, inString)
    ensures Canon(data, inString).Some?
    ensures Escaped(Canon(data, inString).value, inString, at) == Escaped(data, inString, at)
    decreases |data|
  {
    hide Accepts, Canon, Meaning, Clean, Utf8Run, Escaped;
    if data == [] {
      NothingEscaped(inString);
    } else {
      var n, now := HeadOf(data, inString);
      var piece, rest := data[..n], data[n..];
      assert data == piece + rest;
      if Unit(piece, inString, now) {
        UnitThen(piece, inString, now, rest);
        UnitEscaped(piece, inString, now, rest, at);
        EscapesStay(rest, now, at + |UnitMeaning(piece, inString)|);
        UnitEscaped(piece, inString, now, Canon(rest, now).value, at);
      } else {
        var plain := EncodeRune(Escape(data).value);
        RewrittenHead(data);
        RewrittenEscaped(data, at);
        EscapesStay(rest, true, at + |plain|);
        ContentEscaped(plain, Canon(rest, true).value, at);
      }
    }
  }

  lemma NothingEscaped(inString: bool)
    requires Accepts([], inString)
    ensures Canon([], inString) == Some([])
  {
  }

  lemma RewrittenEscaped(data: Bytes, at: nat)
    requires Escape(data).Some? && Rewritten(Escape(data).value)
    ensures Escaped(data, true, at) == Escaped(data[6..], true, at + |EncodeRune(Escape(data).value)|)
    ensures var plain := EncodeRune(Escape(data).value);
      forall k | 0 <= k < |plain| :: plain[k] >= 0x20 && plain[k] != QUOTE && plain[k] != BACKSLASH
  {
  }
}
