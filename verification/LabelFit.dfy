/**
 * FitControlLabelsV2: peer labels are filled rune by rune, in turns, as far as the per-label limits and the envelope
 * allow.  A string of Dafny characters is a sequence of Unicode scalar values, so every label is valid UTF-8.
 */
module LabelFit {
  import opened Wrappers

  const MAX_RUNES: nat := 32
  const MAX_CONTENT: nat := 32
  const MAX_ENVELOPE: nat := 1024

  function Utf8Length(ch: char): nat {
    if ch < '\U{80}' then 1 else if ch < '\U{800}' then 2 else if ch < '\U{10000}' then 3 else 4
  }

  function ContentCost(ch: char): nat {
    if ch == '"' || ch == '\\' || ch == '\U{8}' || ch == '\U{c}' || ch == '\n' || ch == '\r' || ch == '\t' then 2
    else if ch < '\U{20}' then 6
    else Utf8Length(ch)
  }

  function ContentBytes(s: string): nat {
    if s == "" then 0 else ContentBytes(s[..|s| - 1]) + ContentCost(s[|s| - 1])
  }

  /** jsonStringContentBytes. */
  method JsonStringContentBytes(value: string) returns (encodedBytes: nat)
    ensures encodedBytes == ContentBytes(value)
  {
    encodedBytes := 0;
    var i := 0;
    while i < |value|
      invariant 0 <= i <= |value| && encodedBytes == ContentBytes(value[..i])
    {
      assert value[..i + 1][..i] == value[..i];
      var ch := value[i];
      if ch == '"' || ch == '\\' || ch == '\U{8}' || ch == '\U{c}' || ch == '\n' || ch == '\r' || ch == '\t' {
        encodedBytes := encodedBytes + 2;
      } else if ch < '\U{20}' {
        encodedBytes := encodedBytes + 6;
      } else {
        encodedBytes := encodedBytes + Utf8Length(ch);
      }
      i := i + 1;
    }
    assert value[..i] == value;
  }

  // ---- The encoder ----

  /** An encoder of the control: fixed bytes, and at least one byte for every rune of a label. */
  datatype Encoder = Encoder(base: nat, cost: char -> nat)

  function LabelBytes(e: Encoder, s: string): nat {
    if s == "" then 0 else LabelBytes(e, s[..|s| - 1]) + 1 + e.cost(s[|s| - 1])
  }

  function Size(e: Encoder, labels: seq<string>): nat {
    if labels == [] then e.base
    else Size(e, labels[..|labels| - 1]) + LabelBytes(e, labels[|labels| - 1])
  }

  lemma {:induction false} SizeUpdate(e: Encoder, labels: seq<string>, j: nat, s: string)
    requires j < |labels|
    ensures Size(e, labels[j := s]) + LabelBytes(e, labels[j]) == Size(e, labels) + LabelBytes(e, s)
  {
    var n := |labels| - 1;
    if j < n {
      assert labels[j := s][..n] == labels[..n][j := s];
      SizeUpdate(e, labels[..n], j, s);
    } else {
      assert labels[j := s][..n] == labels[..n];
    }
  }

  lemma {:induction false} LabelBytesGrow(e: Encoder, s: string, n: nat)
    requires n <= |s|
    ensures LabelBytes(e, s[..n]) <= LabelBytes(e, s)
  {
    if n == |s| {
      assert s[..n] == s;
    } else {
      LabelBytesGrow(e, s[..|s| - 1], n);
      assert s[..|s| - 1][..n] == s[..n];
    }
  }

  /** Shorter labels never encode longer. */
  lemma {:induction false} SizeGrows(e: Encoder, shorter: seq<string>, longer: seq<string>)
    requires |shorter| == |longer| && forall i | 0 <= i < |shorter| :: shorter[i] <= longer[i]
    ensures Size(e, shorter) <= Size(e, longer)
  {
    if shorter != [] {
      var n := |shorter| - 1;
      SizeGrows(e, shorter[..n], longer[..n]);
      LabelBytesGrow(e, longer[n], |shorter[n]|);
      assert longer[n][..|shorter[n]|] == shorter[n];
    }
  }

  // ---- Taking one rune ----

  /** Label j can take the next rune of its full text. */
  predicate CanTake(e: Encoder, full: seq<string>, labels: seq<string>, j: nat)
    requires j < |full| == |labels| && |labels[j]| < |full[j]|
  {
    var candidate := labels[j] + [full[j][|labels[j]|]];
    |candidate| <= MAX_RUNES && ContentBytes(candidate) <= MAX_CONTENT
    && Size(e, labels[j := candidate]) <= MAX_ENVELOPE
  }

  function Take(s: string, n: nat): string { if |s| <= n then s else s[..n] }

  /** The labels as they stood when label j had its turn with its present length: those before it had moved already. */
  function AtTurn(labels: seq<string>, j: nat): seq<string>
    requires j < |labels|
  {
    seq(|labels|, i requires 0 <= i < |labels| => Take(labels[i], |labels[j]| + (if i < j then 1 else 0)))
  }

  predicate Prefixes(labels: seq<string>, full: seq<string>) {
    |labels| == |full| && forall i | 0 <= i < |labels| :: labels[i] <= full[i]
  }

  /** Label j stopped for a reason: it is whole, or its next rune did not fit at its turn. */
  predicate StoppedAt(e: Encoder, full: seq<string>, labels: seq<string>, j: nat)
    requires Prefixes(labels, full) && j < |full|
  {
    |labels[j]| < |full[j]| ==> !CanTake(e, full, AtTurn(labels, j), j)
  }

  /** What did not fit at its turn does not fit at the end either. */
  lemma StoppedForGood(e: Encoder, full: seq<string>, labels: seq<string>, j: nat)
    requires Prefixes(labels, full) && j < |full| && StoppedAt(e, full, labels, j) && |labels[j]| < |full[j]|
    ensures !CanTake(e, full, labels, j)
  {
    var turn := AtTurn(labels, j);
    var candidate := labels[j] + [full[j][|labels[j]|]];
    assert turn[j] == labels[j];
    var before, after := turn[j := candidate], labels[j := candidate];
    forall i | 0 <= i < |labels| ensures before[i] <= after[i] {
      assert turn[i] <= labels[i];
    }
    SizeGrows(e, before, after);
  }

  // ---- The loop ----

  function TotalRunes(full: seq<string>): nat {
    if full == [] then 0 else TotalRunes(full[..|full| - 1]) + |full[|full| - 1]|
  }

  lemma {:induction false} TotalBounds(full: seq<string>, j: nat)
    requires j < |full|
    ensures |full[j]| <= TotalRunes(full)
  {
    if j < |full| - 1 { TotalBounds(full[..|full| - 1], j); }
  }

  /**
   * Where label i stands when pass `turn` has come to label `next`: open labels have as many runes as turns, closed
   * ones at most that and a reason to have stopped.
   */
  predicate InTurn(e: Encoder, full: seq<string>, labels: seq<string>, positions: seq<nat>, turn: nat, next: nat) {
    && Prefixes(labels, full) && |positions| == |full| && next <= |full|
    && forall i | 0 <= i < |full| ::
         var turns := turn + (if i < next then 1 else 0);
         && |labels[i]| <= turns
         && (if positions[i] < |full[i]| then positions[i] == turns == |labels[i]|
             else StoppedAt(e, full, labels, i) && (|labels[i]| == |full[i]| || |labels[i]| < turns))
  }

  lemma NowIsItsTurn(e: Encoder, full: seq<string>, labels: seq<string>, positions: seq<nat>, turn: nat, i: nat)
    requires i < |full| && InTurn(e, full, labels, positions, turn, i) && positions[i] < |full[i]|
    ensures AtTurn(labels, i) == labels
  {
    forall k | 0 <= k < |labels| ensures AtTurn(labels, i)[k] == labels[k] {
      assert |labels[k]| <= turn + (if k < i then 1 else 0);
    }
  }

  lemma Closes(e: Encoder, full: seq<string>, labels: seq<string>, positions: seq<nat>, turn: nat, i: nat)
    requires i < |full| && InTurn(e, full, labels, positions, turn, i) && positions[i] < |full[i]|
    requires !CanTake(e, full, labels, i)
    ensures InTurn(e, full, labels, positions[i := |full[i]|], turn, i + 1)
  {
    hide CanTake;
    NowIsItsTurn(e, full, labels, positions, turn, i);
  }

  lemma Advances(e: Encoder, full: seq<string>, labels: seq<string>, positions: seq<nat>, turn: nat, i: nat)
    requires i < |full| && InTurn(e, full, labels, positions, turn, i) && positions[i] < |full[i]|
    ensures var candidate := labels[i] + [full[i][positions[i]]];
            InTurn(e, full, labels[i := candidate], positions[i := positions[i] + 1], turn, i + 1)
  {
    hide CanTake;
    var candidate := labels[i] + [full[i][positions[i]]];
    var moved := labels[i := candidate];
    assert candidate == full[i][..turn + 1];
    forall j | 0 <= j < |full| && j != i && positions[j] >= |full[j]| ensures StoppedAt(e, full, moved, j) {
      if |labels[j]| < |full[j]| {
        assert AtTurn(moved, j) == AtTurn(labels, j) by {
          forall k | 0 <= k < |labels| ensures AtTurn(moved, j)[k] == AtTurn(labels, j)[k] {
          }
        }
      }
    }
  }

  lemma Skips(e: Encoder, full: seq<string>, labels: seq<string>, positions: seq<nat>, turn: nat, i: nat)
    requires i < |full| && InTurn(e, full, labels, positions, turn, i) && positions[i] >= |full[i]|
    ensures InTurn(e, full, labels, positions, turn, i + 1)
  {
  }

  lemma NextTurn(e: Encoder, full: seq<string>, labels: seq<string>, positions: seq<nat>, turn: nat)
    requires InTurn(e, full, labels, positions, turn, |full|)
    ensures InTurn(e, full, labels, positions, turn + 1, 0)
  {
  }

  /** Every label and the envelope are within their limits. */
  predicate Within(e: Encoder, labels: seq<string>) {
    && Size(e, labels) <= MAX_ENVELOPE
    && forall j | 0 <= j < |labels| :: |labels[j]| <= MAX_RUNES && ContentBytes(labels[j]) <= MAX_CONTENT
  }

  /** One label's turn: it takes its next rune, or is closed when that does not fit. */
  method TakeTurn(e: Encoder, full: seq<string>, labels: seq<string>, positions: seq<nat>, ghost turn: nat, i: nat)
    returns (labels': seq<string>, positions': seq<nat>)
    requires i < |full| && InTurn(e, full, labels, positions, turn, i) && Within(e, labels) && positions[i] < |full[i]|
    ensures InTurn(e, full, labels', positions', turn, i + 1) && Within(e, labels')
    ensures forall j | 0 <= j < |full| && j != i :: positions'[j] == positions[j]
  {
    var candidate := labels[i] + [full[i][positions[i]]];
    assert positions[i] == |labels[i]|;
    if |candidate| > MAX_RUNES || ContentBytes(candidate) > MAX_CONTENT
       || Size(e, labels[i := candidate]) > MAX_ENVELOPE
    {
      Closes(e, full, labels, positions, turn, i);
      return labels, positions[i := |full[i]|];
    }
    Advances(e, full, labels, positions, turn, i);
    return labels[i := candidate], positions[i := positions[i] + 1];
  }

  predicate AllClosed(full: seq<string>, positions: seq<nat>, n: nat) {
    n <= |full| == |positions| && forall j | 0 <= j < n :: positions[j] >= |full[j]|
  }

  /** One pass over the labels; false when every label was closed already. */
  method Pass(e: Encoder, full: seq<string>, labels: seq<string>, positions: seq<nat>, ghost turn: nat)
    returns (labels': seq<string>, positions': seq<nat>, progress: bool)
    requires InTurn(e, full, labels, positions, turn, 0) && Within(e, labels)
    ensures InTurn(e, full, labels', positions', turn + 1, 0) && Within(e, labels')
    ensures progress ==> turn < TotalRunes(full)
    ensures !progress ==> AllClosed(full, positions', |full|)
  {
    labels', positions', progress := labels, positions, false;
    var i := 0;
    while i < |full|
      invariant 0 <= i <= |full| && InTurn(e, full, labels', positions', turn, i) && Within(e, labels')
      invariant !progress ==> AllClosed(full, positions', i)
      invariant progress ==> turn < TotalRunes(full)
    {
      if positions'[i] < |full[i]| {
        progress := true;
        TotalBounds(full, i);
        labels', positions' := TakeTurn(e, full, labels', positions', turn, i);
      } else {
        Skips(e, full, labels', positions', turn, i);
      }
      i := i + 1;
    }
    NextTurn(e, full, labels', positions', turn);
  }

  /** The result of fitting: nothing when even empty labels do not fit, and otherwise a maximal fair filling. */
  ghost predicate Fitted(e: Encoder, full: seq<string>, labels: seq<string>) {
    && Prefixes(labels, full) && Within(e, labels)
    && (forall j | 0 <= j < |full| :: StoppedAt(e, full, labels, j))
    && (forall j | 0 <= j < |full| && |labels[j]| < |full[j]| :: !CanTake(e, full, labels, j))
  }

  lemma ClosedIsFitted(e: Encoder, full: seq<string>, labels: seq<string>, positions: seq<nat>, turn: nat)
    requires InTurn(e, full, labels, positions, turn, 0) && Within(e, labels) && AllClosed(full, positions, |full|)
    ensures Fitted(e, full, labels)
  {
    hide CanTake;
    forall j | 0 <= j < |full| && |labels[j]| < |full[j]| ensures !CanTake(e, full, labels, j) {
      StoppedForGood(e, full, labels, j);
    }
  }

  function Empty(n: nat): seq<string> { seq(n, i => "") }

  /** FitControlLabelsV2 after validation; None when even empty labels do not fit. */
  method FitLabels(full: seq<string>, e: Encoder) returns (fitted: Option<seq<string>>)
    ensures fitted.None? <==> Size(e, Empty(|full|)) > MAX_ENVELOPE
    ensures fitted.Some? ==> Fitted(e, full, fitted.value)
  {
    var labels := Empty(|full|);
    if Size(e, labels) > MAX_ENVELOPE {
      return None;
    }
    var positions: seq<nat> := seq(|full|, i => 0);
    ghost var turn := 0;
    var progress := true;
    while progress
      invariant InTurn(e, full, labels, positions, turn, 0) && Within(e, labels)
      invariant !progress ==> AllClosed(full, positions, |full|)
      invariant turn <= TotalRunes(full) + 1 && (progress ==> turn <= TotalRunes(full))
      decreases TotalRunes(full) + 1 - turn
    {
      labels, positions, progress := Pass(e, full, labels, positions, turn);
      turn := turn + 1;
    }
    ClosedIsFitted(e, full, labels, positions, turn);
    return Some(labels);
  }

  // ---- The filling is the only one ----

  function Shorter(a: seq<string>, b: seq<string>, i: nat): nat
    requires i < |a| == |b|
  {
    if |a[i]| < |b[i]| then |a[i]| else |b[i]|
  }

  predicate Differs(a: seq<string>, b: seq<string>, i: nat)
    requires i < |a| == |b|
  {
    |a[i]| != |b[i]|
  }

  /** The label at which two fillings part first, in the order of the turns. */
  lemma FirstDifference(a: seq<string>, b: seq<string>, some: nat) returns (j: nat)
    requires some < |a| == |b| && Differs(a, b, some)
    ensures j < |a| && Differs(a, b, j)
    ensures forall i | 0 <= i < |a| && Differs(a, b, i) ::
              Shorter(a, b, j) < Shorter(a, b, i) || (Shorter(a, b, j) == Shorter(a, b, i) && j <= i)
  {
    j := some;
    var n := 0;
    while n < |a|
      invariant 0 <= n <= |a| && j < |a| && Differs(a, b, j)
      invariant j < n || j == some
      invariant forall i | 0 <= i < n && Differs(a, b, i) ::
                  Shorter(a, b, j) < Shorter(a, b, i) || (Shorter(a, b, j) == Shorter(a, b, i) && j <= i)
    {
      if Differs(a, b, n) && (Shorter(a, b, n) < Shorter(a, b, j) || (Shorter(a, b, n) == Shorter(a, b, j) && n < j)) {
        j := n;
      }
      n := n + 1;
    }
  }

  lemma {:induction false} ContentGrows(s: string, n: nat)
    requires n <= |s|
    ensures ContentBytes(s[..n]) <= ContentBytes(s)
  {
    if n == |s| {
      assert s[..n] == s;
    } else {
      ContentGrows(s[..|s| - 1], n);
      assert s[..|s| - 1][..n] == s[..n];
    }
  }

  /** A label cannot stop, in the first turn where two fillings part, if the other filling shows that its rune fits. */
  lemma StoppedTooSoon(e: Encoder, full: seq<string>, a: seq<string>, b: seq<string>, j: nat)
    requires Prefixes(a, full) && Fitted(e, full, b) && j < |full| && |a[j]| < |b[j]|
    requires forall i | 0 <= i < |a| && Differs(a, b, i) ::
               Shorter(a, b, j) < Shorter(a, b, i) || (Shorter(a, b, j) == Shorter(a, b, i) && j <= i)
    ensures !StoppedAt(e, full, a, j)
  {
    hide Size, ContentBytes, AtTurn;
    var k := |a[j]|;
    var candidate := a[j] + [full[j][k]];
    assert candidate == b[j][..k + 1] by { assert a[j] <= full[j] && b[j] <= full[j]; }
    ContentGrows(b[j], k + 1);
    forall i | 0 <= i < |a| && i != j ensures AtTurnLabel(a, i, j) <= b[i] {
      GrownBelow(full, a, b, i, j);
    }
    GrownSize(e, a, b, j, candidate);
    assert Within(e, b);
  }

  /** Label i at the turn of label j. */
  function AtTurnLabel(labels: seq<string>, i: nat, j: nat): string
    requires i < |labels| && j < |labels|
  {
    Take(labels[i], |labels[j]| + (if i < j then 1 else 0))
  }

  lemma GrownBelow(full: seq<string>, a: seq<string>, b: seq<string>, i: nat, j: nat)
    requires Prefixes(a, full) && Prefixes(b, full) && i < |full| && j < |full| && i != j && |a[j]| < |b[j]|
    requires Differs(a, b, i) ==>
               Shorter(a, b, j) < Shorter(a, b, i) || (Shorter(a, b, j) == Shorter(a, b, i) && j <= i)
    ensures AtTurnLabel(a, i, j) <= b[i]
  {
    assert a[i] <= full[i] && b[i] <= full[i];
    if !Differs(a, b, i) { assert a[i] == b[i]; }
  }

  lemma GrownSize(e: Encoder, a: seq<string>, b: seq<string>, j: nat, candidate: string)
    requires j < |a| == |b| && candidate <= b[j]
    requires forall i | 0 <= i < |a| && i != j :: AtTurnLabel(a, i, j) <= b[i]
    ensures Size(e, AtTurn(a, j)[j := candidate]) <= Size(e, b)
    ensures AtTurn(a, j)[j] == a[j]
  {
    hide Size;
    var grown := AtTurn(a, j)[j := candidate];
    forall i | 0 <= i < |a| ensures grown[i] <= b[i] {
      if i != j { assert grown[i] == AtTurnLabel(a, i, j); }
    }
    SizeGrows(e, grown, b);
  }

  /** There is exactly one filling that is within the limits and in which every label stopped for a reason. */
  lemma FittedIsUnique(e: Encoder, full: seq<string>, a: seq<string>, b: seq<string>)
    requires Fitted(e, full, a) && Fitted(e, full, b)
    ensures a == b
  {
    if some: nat :| some < |full| && Differs(a, b, some) {
      var j := FirstDifference(a, b, some);
      if |a[j]| < |b[j]| {
        StoppedTooSoon(e, full, a, b, j);
      } else {
        assert forall i | 0 <= i < |b| :: Differs(b, a, i) == Differs(a, b, i) && Shorter(b, a, i) == Shorter(a, b, i);
        StoppedTooSoon(e, full, b, a, j);
      }
      assert false;
    }
    forall i | 0 <= i < |full| ensures a[i] == b[i] {
      assert !Differs(a, b, i);
    }
  }
}
