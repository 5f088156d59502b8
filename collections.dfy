/** The generic view of a structured document (string-keyed maps nested inside each other, with
    strings and other scalars at the leaves) and the dotted-path lookups the Ark adapter uses on it.
    A dotted path such as "spec.csi" is written here as its segments, ["spec", "csi"]. */
module Collections {
  import opened Wrappers

  datatype Value = Str(s: string) | Obj(fields: map<string, Value>) | Other

  type Path = p: seq<string> | |p| > 0 witness [""]

  datatype PathError =
    | KeyNotFound(key: string)       // a segment of the path is not a key of the map reached so far
    | NotAMapAtKey(key: string)      // a segment before the last one reaches something other than a map
    | NotAStringAtPath(path: Path)   // the path exists but does not hold a string
    | NotAMapAtPath(path: Path)      // the path exists but does not hold a map

  /** The value at `path` below `root`. */
  function GetValue(root: map<string, Value>, path: Path): Result<Value, PathError>
    decreases |path|
  {
    var key := path[0];
    if key !in root then Failure(KeyNotFound(key))
    else if |path| == 1 then Success(root[key])
    else match root[key]
      case Obj(sub) => GetValue(sub, path[1..])
      case _ => Failure(NotAMapAtKey(key))
  }

  predicate Exists(root: map<string, Value>, path: Path) {
    GetValue(root, path).Success?
  }

  function GetString(root: map<string, Value>, path: Path): Result<string, PathError> {
    match GetValue(root, path)
    case Failure(e) => Failure(e)
    case Success(Str(s)) => Success(s)
    case Success(_) => Failure(NotAStringAtPath(path))
  }

  function GetMap(root: map<string, Value>, path: Path): Result<map<string, Value>, PathError> {
    match GetValue(root, path)
    case Failure(e) => Failure(e)
    case Success(Obj(m)) => Success(m)
    case Success(_) => Failure(NotAMapAtPath(path))
  }

  /** The document after writing `v` at `path` in place: the map that holds the last segment gets the
      new entry, and every map on the way to it sees the change. Where the way is broken nothing is
      written. */
  function SetValue(root: map<string, Value>, path: Path, v: Value): map<string, Value>
    decreases |path|
  {
    var key := path[0];
    if |path| == 1 then root[key := v]
    else if key in root && root[key].Obj? then root[key := Obj(SetValue(root[key].fields, path[1..], v))]
    else root
  }

  /** Two paths part ways at some segment (neither is a prefix of the other). */
  predicate Diverges(p: seq<string>, q: seq<string>) {
    |p| > 0 && |q| > 0 && (p[0] != q[0] || Diverges(p[1..], q[1..]))
  }

  /** Writing into a map found at `path` lands at the extended path. */
  lemma {:induction false} WriteThroughMap(root: map<string, Value>, path: Path, key: string, v: Value)
    requires GetMap(root, path).Success?
    ensures SetValue(root, path, Obj(GetMap(root, path).value[key := v])) == SetValue(root, path + [key], v)
    decreases |path|
  {
    var extended: Path := path + [key];
    assert extended[0] == path[0];
    if |path| > 1 {
      var sub := root[path[0]].fields;
      assert GetMap(root, path) == GetMap(sub, path[1..]);
      assert extended[1..] == path[1..] + [key];
      WriteThroughMap(sub, path[1..], key, v);
    }
  }

  /** After a write at `path`, looking `path` up gives the written value, provided the map that should
      hold the last segment was there. */
  lemma {:induction false} GetAfterSet(root: map<string, Value>, path: Path, v: Value)
    requires |path| == 1 || GetMap(root, path[..|path| - 1]).Success?
    ensures GetValue(SetValue(root, path, v), path) == Success(v)
    decreases |path|
  {
    if |path| > 1 {
      var parent: Path := path[..|path| - 1];
      assert parent[0] == path[0];
      var sub := root[path[0]].fields;
      if |path| > 2 {
        assert parent[1..] == path[1..][..|path| - 2];
        assert GetMap(root, parent) == GetMap(sub, parent[1..]);
      }
      GetAfterSet(sub, path[1..], v);
    }
  }

  /** A write changes no lookup along a path that parts ways with the written one. */
  lemma {:induction false} SetLeavesDivergentPaths(root: map<string, Value>, path: Path, v: Value, other: Path)
    requires Diverges(path, other)
    ensures GetValue(SetValue(root, path, v), other) == GetValue(root, other)
    decreases |path|
  {
    if path[0] == other[0] {
      var key := path[0];
      if key in root && root[key].Obj? {
        SetLeavesDivergentPaths(root[key].fields, path[1..], v, other[1..]);
      }
    }
  }

  /** The map found at `path` after writing `key` inside it is the old map with that one entry updated:
      its other keys keep their values. */
  lemma GetMapAfterWrite(root: map<string, Value>, path: Path, key: string, v: Value)
    requires GetMap(root, path).Success?
    ensures GetMap(SetValue(root, path + [key], v), path) == Success(GetMap(root, path).value[key := v])
  {
    var m := GetMap(root, path).value;
    WriteThroughMap(root, path, key, v);
    if |path| > 1 {
      PrefixOfMapIsMap(root, path);
    }
    GetAfterSet(root, path, Obj(m[key := v]));
  }

  /** Every proper prefix of a path that leads somewhere leads to a map. */
  lemma {:induction false} PrefixOfMapIsMap(root: map<string, Value>, path: Path)
    requires |path| > 1 && GetValue(root, path).Success?
    ensures GetMap(root, path[..|path| - 1]).Success?
    decreases |path|
  {
    var parent: Path := path[..|path| - 1];
    assert parent[0] == path[0];
    if |path| > 2 {
      var sub := root[path[0]].fields;
      assert parent[1..] == path[1..][..|path| - 2];
      PrefixOfMapIsMap(sub, path[1..]);
      assert GetMap(root, parent) == GetMap(sub, parent[1..]);
    }
  }
}
