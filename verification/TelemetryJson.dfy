/** JSON trees as the telemetry stream sees them, and what the receiving side does with a delta. */
module TelemetryJson {
  import opened Wrappers

  /** A leaf is any value that is not an object, compared as a whole. */
  datatype Json = Leaf(text: string) | Obj(fields: map<string, Json>)

  type Path = seq<string>

  // ---- Receiving: deep merge, then removal of the cleared paths ----

  /** The receiver's deep merge: objects merge key by key, anything else is replaced. */
  function Merge(base: map<string, Json>, patch: Json): map<string, Json>
    requires patch.Obj?
    decreases patch
  {
    map k | k in base.Keys + patch.fields.Keys ::
      if k !in patch.fields then base[k]
      else if k in base && base[k].Obj? && patch.fields[k].Obj? then Obj(Merge(base[k].fields, patch.fields[k]))
      else patch.fields[k]
  }

  /** Removes one path, if it is there. */
  function RemovePath(j: Json, path: Path): (r: Json)
    requires path != []
    ensures r.Obj? == j.Obj?
    decreases path
  {
    if j.Leaf? then j
    else if |path| == 1 then Obj(j.fields - {path[0]})
    else if path[0] !in j.fields then j
    else Obj(j.fields[path[0] := RemovePath(j.fields[path[0]], path[1..])])
  }

  predicate NoneEmpty(paths: seq<Path>) { forall k | 0 <= k < |paths| :: paths[k] != [] }

  function RemoveAll(j: Json, paths: seq<Path>): (r: Json)
    requires NoneEmpty(paths)
    ensures r.Obj? == j.Obj?
  {
    if paths == [] then j else RemovePath(RemoveAll(j, paths[..|paths| - 1]), paths[|paths| - 1])
  }

  // ---- Removal in any order ----

  function Tails(paths: set<Path>, k: string): set<Path> {
    set p | p in paths && |p| >= 2 && p[0] == k :: p[1..]
  }

  /** The tree without the given paths, all at once. */
  function Prune(j: Json, paths: set<Path>): Json
    decreases j
  {
    if j.Leaf? then j
    else Obj(map k | k in j.fields && [k] !in paths :: Prune(j.fields[k], Tails(paths, k)))
  }

  lemma {:induction false} PruneNothing(j: Json)
    ensures Prune(j, {}) == j
    decreases j
  {
    if j.Obj? {
      forall k | k in j.fields ensures Prune(j.fields[k], Tails({}, k)) == j.fields[k] {
        assert Tails({}, k) == {};
        PruneNothing(j.fields[k]);
      }
    }
  }

  lemma {:induction false} RemoveOneMore(j: Json, paths: set<Path>, path: Path)
    requires path != []
    ensures RemovePath(Prune(j, paths), path) == Prune(j, paths + {path})
    decreases j
  {
    if j.Obj? {
      var more := paths + {path};
      forall k | k in j.fields && [k] !in more && !(|path| >= 2 && path[0] == k)
        ensures Tails(more, k) == Tails(paths, k)
      {
      }
      if |path| >= 2 && path[0] in j.fields {
        assert path == [path[0]] + path[1..];
        assert Tails(more, path[0]) == Tails(paths, path[0]) + {path[1..]};
        RemoveOneMore(j.fields[path[0]], Tails(paths, path[0]), path[1..]);
      } else if |path| == 1 {
        assert path == [path[0]];
      }
    }
  }

  /** Removing paths one after another depends only on which paths they are. */
  lemma {:induction false} RemoveAllIsPrune(j: Json, paths: seq<Path>)
    requires NoneEmpty(paths)
    ensures RemoveAll(j, paths) == Prune(j, set p | p in paths)
  {
    if paths == [] {
      PruneNothing(j);
      assert (set p | p in paths) == {};
    } else {
      var front, last := paths[..|paths| - 1], paths[|paths| - 1];
      RemoveAllIsPrune(j, front);
      RemoveOneMore(j, (set p | p in front), last);
      assert paths == front + [last];
      assert (set p | p in paths) == (set p | p in front) + {last};
    }
  }
}
