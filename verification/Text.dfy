/** strings.Split on one character. */
module Text {
  function Split(s: string, separator: char): (parts: seq<string>)
    ensures parts != []
  {
    if s == "" then [""]
    else
      var rest := Split(s[1..], separator);
      if s[0] == separator then [""] + rest else [[s[0]] + rest[0]] + rest[1..]
  }

  lemma {:induction false} SplitNone(s: string, separator: char)
    requires separator !in s
    ensures Split(s, separator) == [s]
  {
    if s != "" {
      SplitNone(s[1..], separator);
      assert [s[0]] + s[1..] == s;
    }
  }

  /** A last part without separators is split off whole. */
  lemma {:induction false} SplitLast(a: string, separator: char, b: string)
    requires separator !in b
    ensures Split(a + [separator] + b, separator) == Split(a, separator) + [b]
  {
    var s := a + [separator] + b;
    if a == "" {
      SplitNone(b, separator);
      assert s[1..] == b;
    } else {
      assert s[1..] == a[1..] + [separator] + b;
      SplitLast(a[1..], separator, b);
      assert s[0] == a[0];
    }
  }
}
