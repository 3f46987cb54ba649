/** The delta between two telemetry trees, and the sender that keeps a remote mirror equal to what it sent last. */
module TelemetryDelta {
  import opened Text
  import opened Wrappers
  import opened TelemetryJson

  const FULL_RESYNC_EVERY: nat := 20

  // ---- What a delta is ----

  /** What the delta carries for a key of curr, if anything. */
  function DeltaAt(prev: map<string, Json>, curr: Json, k: string): Option<Json>
    requires curr.Obj? && k in curr.fields
    decreases curr, 0
  {
    var cv := curr.fields[k];
    if k !in prev then Some(cv)
    else if cv.Obj? && prev[k].Obj? then
      var sub := Delta(prev[k].fields, cv);
      if sub == map[] then None else Some(Obj(sub))
    else if prev[k] != cv then Some(cv)
    else None
  }

  function Delta(prev: map<string, Json>, curr: Json): map<string, Json>
    requires curr.Obj?
    decreases curr, 1
  {
    map k | k in curr.fields && DeltaAt(prev, curr, k).Some? :: DeltaAt(prev, curr, k).value
  }

  /** The paths of prev that are gone from curr, topmost only. */
  function Cleared(prev: map<string, Json>, curr: Json): set<Path>
    requires curr.Obj?
    decreases curr
  {
    (set k | k in prev && k !in curr.fields :: [k])
    + (set k, t | k in curr.fields && k in prev && curr.fields[k].Obj? && prev[k].Obj?
                  && t in Cleared(prev[k].fields, curr.fields[k]) :: [k] + t)
  }

  /** Merging the delta into prev and removing the cleared paths gives curr. */
  lemma {:induction false} PatchYieldsCurrent(prev: map<string, Json>, curr: Json)
    requires curr.Obj?
    ensures Prune(Obj(Merge(prev, Obj(Delta(prev, curr)))), Cleared(prev, curr)) == curr
    decreases curr
  {
    var merged, cleared := Merge(prev, Obj(Delta(prev, curr))), Cleared(prev, curr);
    forall k | k in merged.Keys + curr.fields.Keys
      ensures (k in merged && [k] !in cleared) <==> k in curr.fields
      ensures k in curr.fields ==> Prune(merged[k], Tails(cleared, k)) == curr.fields[k]
    {
      ClearedTop(prev, curr, k);
      ClearedTails(prev, curr, k);
      if k in curr.fields {
        var cv := curr.fields[k];
        MergedAt(prev, curr, k);
        if k in prev && cv.Obj? && prev[k].Obj? {
          PatchYieldsCurrent(prev[k].fields, cv);
        } else {
          PruneNothing(cv);
        }
      }
    }
  }

  /** What the merge leaves under a key of curr. */
  lemma MergedAt(prev: map<string, Json>, curr: Json, k: string)
    requires curr.Obj? && k in curr.fields
    ensures var merged := Merge(prev, Obj(Delta(prev, curr)));
      && k in merged
      && merged[k] == if k in prev && curr.fields[k].Obj? && prev[k].Obj?
                      then Obj(Merge(prev[k].fields, Obj(Delta(prev[k].fields, curr.fields[k])))) else curr.fields[k]
  {
    var cv, delta := curr.fields[k], Delta(prev, curr);
    assert k in delta <==> DeltaAt(prev, curr, k).Some?;
    if k in prev && cv.Obj? && prev[k].Obj? {
      MergeNothing(prev[k].fields);
    }
  }

  lemma MergeNothing(base: map<string, Json>)
    ensures Merge(base, Obj(map[])) == base
  {
  }

  lemma ClearedTop(prev: map<string, Json>, curr: Json, k: string)
    requires curr.Obj?
    ensures [k] in Cleared(prev, curr) <==> k in prev && k !in curr.fields
  {
    if k in curr.fields && k in prev && curr.fields[k].Obj? && prev[k].Obj? && [k] in Cleared(prev, curr) {
      var j, t :| j in curr.fields && j in prev && curr.fields[j].Obj? && prev[j].Obj?
                  && t in Cleared(prev[j].fields, curr.fields[j]) && [k] == [j] + t;
      ClearedNonEmpty(prev[j].fields, curr.fields[j], t);
    }
  }

  lemma ClearedTails(prev: map<string, Json>, curr: Json, k: string)
    requires curr.Obj?
    ensures Tails(Cleared(prev, curr), k)
            == if k in curr.fields && k in prev && curr.fields[k].Obj? && prev[k].Obj?
               then Cleared(prev[k].fields, curr.fields[k]) else {}
  {
    var cleared := Cleared(prev, curr);
    forall t | t in Tails(cleared, k)
      ensures k in curr.fields && k in prev && curr.fields[k].Obj? && prev[k].Obj?
      ensures t in Cleared(prev[k].fields, curr.fields[k])
    {
      var p :| p in cleared && |p| >= 2 && p[0] == k && p[1..] == t;
    }
    if k in curr.fields && k in prev && curr.fields[k].Obj? && prev[k].Obj? {
      forall t | t in Cleared(prev[k].fields, curr.fields[k]) ensures t in Tails(cleared, k) {
        assert ([k] + t)[1..] == t && [k] + t in cleared;
        ClearedNonEmpty(prev[k].fields, curr.fields[k], t);
      }
    }
  }

  lemma ClearedNonEmpty(prev: map<string, Json>, curr: Json, t: Path)
    requires curr.Obj? && t in Cleared(prev, curr)
    ensures t != []
  {
  }

  // ---- A delta applied to another tree ----

  /** What the receiver makes of the delta from prev to curr when it holds some other tree. */
  function Patched(prev: map<string, Json>, held: map<string, Json>, curr: Json): Json
    requires curr.Obj?
  {
    Prune(Obj(Merge(held, Obj(Delta(prev, curr)))), Cleared(prev, curr))
  }

  /** Merging a whole value over the held one leaves nothing of it behind. */
  predicate Absorbed(held: Json, value: Json)
    decreases value
  {
    held.Obj? && value.Obj? ==>
      forall k | k in held.fields :: k in value.fields && Absorbed(held.fields[k], value.fields[k])
  }

  function FieldsAt(j: map<string, Json>, k: string): map<string, Json> {
    if k in j && j[k].Obj? then j[k].fields else map[]
  }

  /** The delta from prev to curr sets right whatever the held tree has under a key of curr. */
  predicate RepairedAt(prev: map<string, Json>, held: map<string, Json>, curr: Json, k: string)
    requires curr.Obj? && k in curr.fields
    decreases curr, 0
  {
    var value := curr.fields[k];
    if k in prev && prev[k].Obj? && value.Obj? then
      // The delta goes on below the key, and makes an object there only if it carries something.
      && (DeltaAt(prev, curr, k).None? ==> k in held && held[k].Obj?)
      && Repaired(prev[k].fields, FieldsAt(held, k), value)
    else if DeltaAt(prev, curr, k).Some? then k in held ==> Absorbed(held[k], value)
    else k in held && held[k] == value
  }

  /** Every key of the held tree agrees with curr, or is carried or cleared by the delta from prev to curr. */
  predicate Repaired(prev: map<string, Json>, held: map<string, Json>, curr: Json)
    requires curr.Obj?
    decreases curr, 1
  {
    && (forall k | k in curr.fields :: RepairedAt(prev, held, curr, k))
    && forall k | k in held && k !in curr.fields :: k in prev
  }

  lemma {:induction false} AbsorbedMerges(held: map<string, Json>, value: Json)
    requires value.Obj?
    ensures Merge(held, value) == value.fields <==> Absorbed(Obj(held), value)
    decreases value
  {
    var merged := Merge(held, value);
    forall k | k in held && k in value.fields
      ensures merged[k] == value.fields[k] <==> Absorbed(held[k], value.fields[k])
    {
      if held[k].Obj? && value.fields[k].Obj? {
        AbsorbedMerges(held[k].fields, value.fields[k]);
        assert Obj(held[k].fields) == held[k];
      }
    }
    if merged == value.fields {
      forall k | k in held ensures k in value.fields && Absorbed(held[k], value.fields[k]) {
        assert k in merged;
      }
    }
  }

  lemma MergeOntoNothing(patch: map<string, Json>)
    ensures Merge(map[], Obj(patch)) == patch
  {
  }

  /** What merging the delta over the held tree leaves under a key of curr. */
  lemma MergedOver(prev: map<string, Json>, held: map<string, Json>, curr: Json, k: string)
    requires curr.Obj? && k in curr.fields
    ensures var value, merged := curr.fields[k], Merge(held, Obj(Delta(prev, curr)));
      if k in prev && prev[k].Obj? && value.Obj? then
        if (k in held && held[k].Obj?) || DeltaAt(prev, curr, k).Some?
        then k in merged && merged[k] == Obj(Merge(FieldsAt(held, k), Obj(Delta(prev[k].fields, value))))
        else k in merged ==> merged[k].Leaf?
      else if DeltaAt(prev, curr, k).Some? then
        && k in merged
        && merged[k] == (if k in held && held[k].Obj? && value.Obj? then Obj(Merge(held[k].fields, value)) else value)
      else (k in merged <==> k in held) && (k in merged ==> merged[k] == held[k])
  {
    var delta := Delta(prev, curr);
    assert k in delta <==> DeltaAt(prev, curr, k).Some?;
    if k in prev && prev[k].Obj? && curr.fields[k].Obj? {
      MergeNothing(FieldsAt(held, k));
      MergeOntoNothing(Delta(prev[k].fields, curr.fields[k]));
    }
  }

  /** What the receiver ends up with under one key. */
  lemma PatchedAt(prev: map<string, Json>, held: map<string, Json>, curr: Json, k: string)
    requires curr.Obj?
    ensures Patched(prev, held, curr).Obj?
    ensures k !in curr.fields ==> (k in Patched(prev, held, curr).fields <==> k in held && k !in prev)
    ensures k in curr.fields ==>
              var value, t := curr.fields[k], Patched(prev, held, curr).fields;
              if k in prev && prev[k].Obj? && value.Obj? then
                if (k in held && held[k].Obj?) || DeltaAt(prev, curr, k).Some?
                then k in t && t[k] == Patched(prev[k].fields, FieldsAt(held, k), value)
                else k in t ==> t[k].Leaf?
              else if DeltaAt(prev, curr, k).Some? then
                && k in t
                && t[k] == (if k in held && held[k].Obj? && value.Obj? then Obj(Merge(held[k].fields, value))
                            else value)
              else (k in t <==> k in held) && (k in t ==> t[k] == held[k])
  {
    hide Cleared, DeltaAt;
    var merged, cleared := Merge(held, Obj(Delta(prev, curr))), Cleared(prev, curr);
    ClearedTop(prev, curr, k);
    ClearedTails(prev, curr, k);
    if k in curr.fields {
      MergedOver(prev, held, curr, k);
    } else {
      assert k !in Delta(prev, curr);
    }
    if k in merged && [k] !in cleared {
      PruneNothing(merged[k]);
      assert merged[k].Leaf? ==> Prune(merged[k], Tails(cleared, k)) == merged[k];
    }
  }

  /** The receiver ends up with curr exactly when the delta repairs what it held. */
  lemma {:induction false} PatchedExactly(prev: map<string, Json>, held: map<string, Json>, curr: Json)
    requires curr.Obj?
    ensures Patched(prev, held, curr) == curr <==> Repaired(prev, held, curr)
    decreases curr, 1
  {
    hide Patched, Delta, DeltaAt;
    var t := Patched(prev, held, curr);
    assert t.Obj? by { PatchedAt(prev, held, curr, ""); }
    forall k
      ensures k in curr.fields ==> (k in t.fields && t.fields[k] == curr.fields[k] <==> RepairedAt(prev, held, curr, k))
      ensures k !in curr.fields ==> (k !in t.fields <==> (k in held ==> k in prev))
    {
      PatchedAt(prev, held, curr, k);
      if k in curr.fields {
        RightAt(prev, held, curr, k);
      }
    }
    if Repaired(prev, held, curr) {
      assert t.fields == curr.fields;
    }
  }

  lemma {:induction false} RightAt(prev: map<string, Json>, held: map<string, Json>, curr: Json, k: string)
    requires curr.Obj? && k in curr.fields
    ensures var t := Patched(prev, held, curr);
      t.Obj? && (k in t.fields && t.fields[k] == curr.fields[k] <==> RepairedAt(prev, held, curr, k))
    decreases curr, 0
  {
    hide Patched, Delta;
    var value := curr.fields[k];
    PatchedAt(prev, held, curr, k);
    if k in prev && prev[k].Obj? && value.Obj? {
      PatchedExactly(prev[k].fields, FieldsAt(held, k), value);
    } else if k in held && held[k].Obj? && value.Obj? {
      AbsorbedMerges(held[k].fields, value);
      assert Obj(held[k].fields) == held[k] && Obj(value.fields) == value;
    }
  }

  // ---- Nothing unchanged is sent ----

  function Lookup(j: Json, path: Path): Option<Json>
    decreases path
  {
    if path == [] then Some(j)
    else if j.Leaf? || path[0] !in j.fields then None
    else Lookup(j.fields[path[0]], path[1..])
  }

  /** Every path present in the delta leads to different values in prev and curr. */
  lemma {:induction false} DeltaDiffers(prev: map<string, Json>, curr: Json, path: Path)
    requires curr.Obj? && path != [] && Lookup(Obj(Delta(prev, curr)), path).Some?
    ensures Lookup(Obj(prev), path) != Lookup(curr, path)
    decreases curr
  {
    var k := path[0];
    var cv := curr.fields[k];
    if k in prev && cv.Obj? && prev[k].Obj? {
      if |path| == 1 {
        var sub := Delta(prev[k].fields, cv);
        var inner :| inner in sub;
        assert Lookup(Obj(sub), [inner]).Some?;
        DeltaDiffers(prev[k].fields, cv, [inner]);
      } else {
        DeltaDiffers(prev[k].fields, cv, path[1..]);
      }
    } else {
      assert Lookup(curr, path).Some?;
    }
  }

  /** No news, no delta: the message of an idle tick carries nothing. */
  lemma {:induction false} NoChangeNoDelta(curr: Json)
    requires curr.Obj?
    ensures Delta(curr.fields, curr) == map[] && Cleared(curr.fields, curr) == {}
    decreases curr
  {
    forall k | k in curr.fields && curr.fields[k].Obj?
      ensures Delta(curr.fields[k].fields, curr.fields[k]) == map[]
      ensures Cleared(curr.fields[k].fields, curr.fields[k]) == {}
    {
      NoChangeNoDelta(curr.fields[k]);
    }
  }

  // ---- Dotted paths ----

  /** joinKey. */
  function JoinKey(prefix: string, k: string): string {
    if prefix == "" then k else prefix + "." + k
  }

  function JoinPath(path: Path): string {
    if path == [] then "" else JoinKey(JoinPath(path[..|path| - 1]), path[|path| - 1])
  }

  /** Keys a dotted path can carry. */
  predicate PlainKey(k: string) { k != "" && '.' !in k }

  predicate PlainPath(path: Path) { forall i | 0 <= i < |path| :: PlainKey(path[i]) }

  predicate PlainKeys(j: Json)
    decreases j
  {
    j.Obj? ==> forall k | k in j.fields :: PlainKey(k) && PlainKeys(j.fields[k])
  }

  /** What the receiver reads back from a cleared entry. */
  lemma {:induction false} SplitOfJoin(path: Path)
    requires path != [] && PlainPath(path)
    ensures JoinPath(path) != "" && Split(JoinPath(path), '.') == path
  {
    var front, last := path[..|path| - 1], path[|path| - 1];
    assert PlainKey(last);
    if front == [] {
      assert JoinPath(front) == "";
      SplitNone(last, '.');
    } else {
      SplitOfJoin(front);
      SplitLast(JoinPath(front), '.', last);
      assert JoinPath(path) == JoinPath(front) + ['.'] + last;
    }
  }

  lemma {:induction false} ClearedPlain(prev: map<string, Json>, curr: Json, path: Path)
    requires curr.Obj? && PlainKeys(Obj(prev)) && path in Cleared(prev, curr)
    ensures path != [] && PlainPath(path)
    decreases curr
  {
    var k := path[0];
    if k in curr.fields && k in prev && curr.fields[k].Obj? && prev[k].Obj? {
      var t :| t in Cleared(prev[k].fields, curr.fields[k]) && path == [k] + t;
      ClearedPlain(prev[k].fields, curr.fields[k], t);
    }
  }

  // ---- diffMap ----

  /** The dotted forms of the paths below a prefix. */
  function JoinAll(path: Path, tails: seq<Path>): seq<string> {
    seq(|tails|, i requires 0 <= i < |tails| => JoinPath(path + tails[i]))
  }

  function Below(k: string, tails: seq<Path>): seq<Path> {
    seq(|tails|, i requires 0 <= i < |tails| => [k] + tails[i])
  }

  /** The cleared paths that run through one of these keys. */
  ghost function ClearedUnder(prev: map<string, Json>, curr: Json, keys: set<string>): set<Path>
    requires curr.Obj?
  {
    set k, t | k in keys && k in curr.fields && k in prev && curr.fields[k].Obj? && prev[k].Obj?
               && t in Cleared(prev[k].fields, curr.fields[k]) :: [k] + t
  }

  lemma UnderOne(prev: map<string, Json>, curr: Json, keys: set<string>, k: string, tails: seq<Path>)
    requires curr.Obj? && k in curr.fields && k in prev && curr.fields[k].Obj? && prev[k].Obj?
    requires (set t | t in tails) == Cleared(prev[k].fields, curr.fields[k])
    ensures ClearedUnder(prev, curr, keys + {k}) == ClearedUnder(prev, curr, keys) + (set t | t in Below(k, tails))
  {
    forall t | t in Cleared(prev[k].fields, curr.fields[k]) ensures [k] + t in Below(k, tails) {
      var i :| 0 <= i < |tails| && tails[i] == t;
      assert Below(k, tails)[i] == [k] + t;
    }
    forall p | p in Below(k, tails) ensures p in ClearedUnder(prev, curr, keys + {k}) {
      var i :| 0 <= i < |tails| && Below(k, tails)[i] == p;
      assert tails[i] in Cleared(prev[k].fields, curr.fields[k]);
    }
  }

  lemma JoinBelow(path: Path, k: string, tails: seq<Path>)
    ensures JoinAll(path + [k], tails) == JoinAll(path, Below(k, tails))
    ensures JoinPath(path + [k]) == JoinKey(JoinPath(path), k)
  {
    assert (path + [k])[..|path|] == path;
    forall i | 0 <= i < |tails| ensures JoinAll(path + [k], tails)[i] == JoinAll(path, Below(k, tails))[i] {
      assert path + [k] + tails[i] == path + ([k] + tails[i]);
    }
  }

  lemma JoinAllAppend(path: Path, a: seq<Path>, b: seq<Path>)
    ensures JoinAll(path, a + b) == JoinAll(path, a) + JoinAll(path, b)
  {
  }

  lemma SetOfConcat(a: seq<Path>, b: seq<Path>)
    ensures (set t | t in a + b) == (set t | t in a) + (set t | t in b)
  {
  }

  /** The part of the delta under these keys. */
  function DeltaOver(prev: map<string, Json>, curr: Json, keys: set<string>): map<string, Json>
    requires curr.Obj?
  {
    map k | k in curr.fields && k in keys && DeltaAt(prev, curr, k).Some? :: DeltaAt(prev, curr, k).value
  }

  lemma DeltaOverOne(prev: map<string, Json>, curr: Json, keys: set<string>, k: string)
    requires curr.Obj? && k in curr.fields && k !in keys
    ensures var one := DeltaAt(prev, curr, k);
      DeltaOver(prev, curr, keys + {k})
      == if one.Some? then DeltaOver(prev, curr, keys)[k := one.value] else DeltaOver(prev, curr, keys)
    ensures !(k in prev && curr.fields[k].Obj? && prev[k].Obj?) ==>
              ClearedUnder(prev, curr, keys + {k}) == ClearedUnder(prev, curr, keys)
  {
  }

  /** What the tails recorded so far stand for. */
  ghost predicate Listed(all: seq<string>, cleared: seq<string>, path: Path, tails: seq<Path>, paths: set<Path>) {
    all == cleared + JoinAll(path, tails) && (set t | t in tails) == paths
  }

  /** diffMap, visiting keys in any order: the delta is Delta, and the new entries are the cleared paths, dotted. */
  method DiffMap(prefix: string, prev: map<string, Json>, curr: Json, cleared: seq<string>, ghost path: Path)
    returns (delta: map<string, Json>, all: seq<string>, ghost tails: seq<Path>)
    requires curr.Obj? && prefix == JoinPath(path)
    ensures delta == Delta(prev, curr)
    ensures Listed(all, cleared, path, tails, Cleared(prev, curr))
    decreases curr
  {
    hide Listed, ClearedUnder, DeltaOver, Cleared, JoinPath;
    delta, all, tails := map[], cleared, [];
    var todo := curr.fields.Keys;
    ghost var done: set<string> := {};
    NothingListed(prev, curr, cleared, path);
    while todo != {}
      invariant done + todo == curr.fields.Keys && done !! todo
      invariant delta == DeltaOver(prev, curr, done)
      invariant Listed(all, cleared, path, tails, ClearedUnder(prev, curr, done))
      decreases todo
    {
      var k :| k in todo;
      DeltaOverOne(prev, curr, done, k);
      var cv := curr.fields[k];
      if k !in prev {
        delta := delta[k := cv];
      } else if cv.Obj? && prev[k].Obj? {
        JoinBelow(path, k, []);
        var sub, more;
        ghost var subTails;
        sub, more, subTails := DiffMap(JoinKey(prefix, k), prev[k].fields, cv, all, path + [k]);
        ListedBelow(prev, curr, all, more, cleared, path, tails, subTails, done, k);
        all, tails := more, tails + Below(k, subTails);
        if sub != map[] {
          delta := delta[k := Obj(sub)];
        }
      } else if prev[k] != cv {
        delta := delta[k := cv];
      }
      done, todo := done + {k}, todo - {k};
    }
    AllKeysDone(prev, curr, done);
    all, tails := ClearGone(prefix, prev, curr, cleared, all, path, tails);
  }

  lemma NothingListed(prev: map<string, Json>, curr: Json, cleared: seq<string>, path: Path)
    requires curr.Obj?
    ensures Listed(cleared, cleared, path, [], ClearedUnder(prev, curr, {})) && DeltaOver(prev, curr, {}) == map[]
  {
  }

  lemma ListedBelow(prev: map<string, Json>, curr: Json, all: seq<string>, more: seq<string>, cleared: seq<string>,
                    path: Path, tails: seq<Path>, subTails: seq<Path>, done: set<string>, k: string)
    requires curr.Obj? && k in curr.fields && k in prev && curr.fields[k].Obj? && prev[k].Obj?
    requires Listed(all, cleared, path, tails, ClearedUnder(prev, curr, done))
    requires Listed(more, all, path + [k], subTails, Cleared(prev[k].fields, curr.fields[k]))
    ensures Listed(more, cleared, path, tails + Below(k, subTails), ClearedUnder(prev, curr, done + {k}))
  {
    hide ClearedUnder, Cleared;
    JoinBelow(path, k, subTails);
    JoinAllAppend(path, tails, Below(k, subTails));
    SetOfConcat(tails, Below(k, subTails));
    UnderOne(prev, curr, done, k, subTails);
  }

  lemma AllKeysDone(prev: map<string, Json>, curr: Json, done: set<string>)
    requires curr.Obj? && done == curr.fields.Keys
    ensures DeltaOver(prev, curr, done) == Delta(prev, curr)
  {
  }

  /** The second loop of diffMap: keys of prev that curr lacks. */
  method ClearGone(prefix: string, prev: map<string, Json>, curr: Json, ghost cleared: seq<string>, listed: seq<string>,
                   ghost path: Path, ghost before: seq<Path>) returns (all: seq<string>, ghost tails: seq<Path>)
    requires curr.Obj? && prefix == JoinPath(path)
    requires Listed(listed, cleared, path, before, ClearedUnder(prev, curr, curr.fields.Keys))
    ensures Listed(all, cleared, path, tails, Cleared(prev, curr))
  {
    hide Listed, ClearedUnder, Cleared, Gone, JoinPath;
    all, tails := listed, before;
    var todo := prev.Keys;
    ghost var under := ClearedUnder(prev, curr, curr.fields.Keys);
    ClearedSplit(prev, curr);
    assert prev.Keys - todo == {} && under + {} == under;
    while todo != {}
      invariant todo <= prev.Keys
      invariant Listed(all, cleared, path, tails, under + Gone(prev, curr, prev.Keys - todo))
      decreases todo
    {
      var k :| k in todo;
      ghost var done := prev.Keys - todo;
      todo := todo - {k};
      assert prev.Keys - todo == done + {k};
      GoneOne(prev, curr, done, k);
      if k !in curr.fields {
        JoinBelow(path, k, []);
        ListedOne(all, cleared, path, tails, under + Gone(prev, curr, done), k);
        assert under + Gone(prev, curr, done) + {[k]} == under + Gone(prev, curr, done + {k});
        all := all + [JoinKey(prefix, k)];
        tails := tails + [[k]];
      } else {
        assert Gone(prev, curr, done) + {} == Gone(prev, curr, done);
      }
    }
    assert prev.Keys - todo == prev.Keys;
  }

  /** The keys of prev among these that curr lacks, as paths. */
  ghost function Gone(prev: map<string, Json>, curr: Json, keys: set<string>): set<Path>
    requires curr.Obj?
  {
    set k | k in keys && k !in curr.fields :: [k]
  }

  lemma GoneOne(prev: map<string, Json>, curr: Json, keys: set<string>, k: string)
    requires curr.Obj?
    ensures Gone(prev, curr, keys + {k}) == Gone(prev, curr, keys) + (if k in curr.fields then {} else {[k]})
  {
  }

  lemma ClearedSplit(prev: map<string, Json>, curr: Json)
    requires curr.Obj?
    ensures Cleared(prev, curr) == ClearedUnder(prev, curr, curr.fields.Keys) + Gone(prev, curr, prev.Keys)
    ensures prev.Keys - prev.Keys == {} && Gone(prev, curr, {}) == {}
  {
  }

  lemma ListedOne(all: seq<string>, cleared: seq<string>, path: Path, tails: seq<Path>, paths: set<Path>, k: string)
    requires Listed(all, cleared, path, tails, paths)
    ensures Listed(all + [JoinPath(path + [k])], cleared, path, tails + [[k]], paths + {[k]})
  {
    JoinAllAppend(path, tails, [[k]]);
    SetOfConcat(tails, [[k]]);
    assert JoinAll(path, [[k]]) == [JoinPath(path + [k])];
  }
}
