/** Config overrides: nested maps merged key by key, and the two override files applied in turn. */
module Overrides {
  import opened ClusterStatus

  /** A decoded config: a map, or anything else. */
  datatype Value = Leaf(text: string) | Node(entries: map<string, Value>)

  // ----- the pure merge -----

  /** Two maps merge key by key; in every other case the override replaces the base. */
  function Merged(base: Value, over: Value): Value
    decreases over
  {
    if base.Leaf? || over.Leaf? then over
    else Node(map key | key in base.entries.Keys + over.entries.Keys ::
      if key !in over.entries then base.entries[key]
      else if key !in base.entries then over.entries[key]
      else Merged(base.entries[key], over.entries[key]))
  }

  lemma MergedKey(base: map<string, Value>, over: map<string, Value>, key: string)
    requires key in over
    ensures var m := Merged(Node(base), Node(over)).entries;
      key in m && m[key] == if key in base && base[key].Node? && over[key].Node? then Merged(base[key], over[key]) else over[key]
  {}

  // ----- the merge in place -----

  /** A Go map of the decoded document, changed in place. */
  class Dict {
    var entries: map<string, Value>

    constructor (entries: map<string, Value>)
      ensures this.entries == entries
    {
      this.entries := entries;
    }
  }

  /** mergeMapsRecursively, over the keys in any order. Nested maps are copied before they merge. */
  method MergeMapsRecursively(dst: Dict, src: map<string, Value>)
    modifies dst
    ensures Node(dst.entries) == Merged(Node(old(dst.entries)), Node(src))
    decreases Node(src)
  {
    ghost var base, merged := dst.entries, Merged(Node(dst.entries), Node(src)).entries;
    var rest := src.Keys;
    while rest != {}
      invariant rest <= src.Keys
      invariant forall key :: key in dst.entries <==> key in base || key in src.Keys - rest
      invariant forall key :: key in dst.entries ==>
        dst.entries[key] == if key in src && key !in rest then merged[key] else base[key]
      decreases rest
    {
      var key :| key in rest;
      var value := src[key];
      MergedKey(base, src, key);
      if key in dst.entries && value.Node? && dst.entries[key].Node? {
        var nested := new Dict(dst.entries[key].entries);
        MergeMapsRecursively(nested, value.entries);
        value := Node(nested.entries);
      }
      dst.entries := dst.entries[key := value];
      rest := rest - {key};
    }
  }

  // ----- paths -----

  function At(v: Value, path: seq<string>): Option<Value>
    decreases |path|
  {
    if path == [] then Some(v)
    else if v.Leaf? || path[0] !in v.entries then None
    else At(v.entries[path[0]], path[1..])
  }

  /** The override puts something that is not a map on the way to `path`. */
  predicate Cut(over: Value, path: seq<string>)
    decreases |path|
  {
    path != [] && (over.Leaf? || (path[0] in over.entries && Cut(over.entries[path[0]], path[1..])))
  }

  /** What stands at every path of the merge: the override where only it has a value, the merge of
      both where both have one, and the base exactly where the override neither has a value nor
      cuts the path off. */
  lemma {:induction false} MergedAt(base: Value, over: Value, path: seq<string>)
    ensures At(Merged(base, over), path) ==
      match At(over, path)
      case Some(o) => (match At(base, path) case Some(b) => Some(Merged(b, o)) case None => Some(o))
      case None => if Cut(over, path) then None else At(base, path)
    decreases |path|
  {
    if path != [] && base.Node? && over.Node? && path[0] in base.entries && path[0] in over.entries {
      MergedAt(base.entries[path[0]], over.entries[path[0]], path[1..]);
    }
  }

  /** A leaf of the override always wins. */
  lemma OverrideLeafWins(base: Value, over: Value, path: seq<string>)
    requires At(over, path).Some? && At(over, path).value.Leaf?
    ensures At(Merged(base, over), path) == At(over, path)
  {
    MergedAt(base, over, path);
  }

  /** Whether the override has a value at `path`, or something other than a map at a prefix of it. */
  predicate Replaces(over: Value, path: seq<string>) {
    exists n :: 0 <= n <= |path| && At(over, path[..n]).Some? && (n == |path| || At(over, path[..n]).value.Leaf?)
  }

  lemma {:induction false} ReplacesMeans(over: Value, path: seq<string>)
    ensures Replaces(over, path) <==> At(over, path).Some? || Cut(over, path)
    decreases |path|
  {
    if At(over, path).Some? {
      assert path[..|path|] == path;
    } else if path != [] && over.Leaf? {
      assert At(over, path[..0]) == Some(over);
    } else if path != [] && path[0] in over.entries {
      var inner, rest := over.entries[path[0]], path[1..];
      ReplacesMeans(inner, rest);
      forall n | 0 <= n <= |rest| ensures At(over, path[..n + 1]) == At(inner, rest[..n]) {
        assert path[..n + 1][0] == path[0] && path[..n + 1][1..] == rest[..n];
      }
      if Replaces(over, path) {
        var n :| 0 <= n <= |path| && At(over, path[..n]).Some? && (n == |path| || At(over, path[..n]).value.Leaf?);
        assert n > 0 && At(over, path[..n - 1 + 1]) == At(inner, rest[..n - 1]);
      }
      if Replaces(inner, rest) {
        var n :| 0 <= n <= |rest| && At(inner, rest[..n]).Some? && (n == |rest| || At(inner, rest[..n]).value.Leaf?);
        assert At(over, path[..n + 1]) == At(inner, rest[..n]);
      }
    } else if path != [] {
      forall n | 0 < n <= |path| ensures At(over, path[..n]).None? { assert path[..n][0] == path[0]; }
    }
  }

  /** A leaf of the base survives unless the override replaces it or a prefix of it; then the
      override alone decides what stands there. */
  lemma BaseLeafSurvives(base: Value, over: Value, path: seq<string>)
    requires At(base, path).Some? && At(base, path).value.Leaf?
    ensures At(Merged(base, over), path) == if Replaces(over, path) then At(over, path) else At(base, path)
  {
    MergedAt(base, over, path);
    ReplacesMeans(over, path);
  }

  // ----- laws of the merge -----

  /** Applying the same override again changes nothing. */
  lemma {:induction false} MergeIsIdempotent(base: Value, over: Value)
    ensures Merged(Merged(base, over), over) == Merged(base, over)
    decreases over
  {
    if base.Node? && over.Node? {
      forall key | key in base.entries && key in over.entries
        ensures Merged(Merged(base.entries[key], over.entries[key]), over.entries[key]) == Merged(base.entries[key], over.entries[key])
      {
        MergeIsIdempotent(base.entries[key], over.entries[key]);
      }
      forall key | key in over.entries && key !in base.entries
        ensures Merged(over.entries[key], over.entries[key]) == over.entries[key]
      {
        MergeWithItself(over.entries[key]);
      }
      assert Merged(Merged(base, over), over).entries == Merged(base, over).entries;
    } else if over.Node? {
      MergeWithItself(over);
    }
  }

  lemma {:induction false} MergeWithItself(v: Value)
    ensures Merged(v, v) == v
    decreases v
  {
    if v.Node? {
      forall key | key in v.entries ensures Merged(v.entries[key], v.entries[key]) == v.entries[key] {
        MergeWithItself(v.entries[key]);
      }
      assert Merged(v, v).entries == v.entries;
    }
  }

  /** At `path` the first override turns a map of the base into something else and the second one
      turns it back into a map, without naming everything the base had there. */
  predicate Resurrects(base: Value, first: Value, second: Value, path: seq<string>) {
    var b, f, s := At(base, path), At(first, path), At(second, path);
    b.Some? && f.Some? && s.Some? && b.value.Node? && f.value.Leaf? && s.value.Node? && Merged(b.value, s.value) != s.value
  }

  /** Merging the two override files first is the same as applying one after the other exactly
      when no path is resurrected that way. */
  lemma {:induction false} OverridesCompose(base: Value, first: Value, second: Value)
    ensures Merged(Merged(base, first), second) == Merged(base, Merged(first, second))
      <==> !exists path :: Resurrects(base, first, second, path)
    decreases second
  {
    if base.Node? && first.Leaf? && second.Node? {
      assert Resurrects(base, first, second, []) <==> Merged(base, second) != second;
    } else if base.Node? && first.Node? && second.Node? {
      ComposeByKeys(base, first, second);
      forall key | InAll(base, first, second, key)
        ensures SameOrder(base, first, second, key) <==>
          !exists path :: Resurrects(base.entries[key], first.entries[key], second.entries[key], path)
      {
        OverridesCompose(base.entries[key], first.entries[key], second.entries[key]);
      }
      ResurrectsByKeys(base, first, second);
      assert forall key, path :: InAll(base, first, second, key) ==>
        (ResurrectsUnder(base, first, second, key, path) <==>
         Resurrects(base.entries[key], first.entries[key], second.entries[key], path));
    }
  }

  predicate InAll(base: Value, first: Value, second: Value, key: string)
    requires base.Node? && first.Node? && second.Node?
  {
    key in base.entries && key in first.entries && key in second.entries
  }

  predicate SameOrder(base: Value, first: Value, second: Value, key: string)
    requires base.Node? && first.Node? && second.Node? && InAll(base, first, second, key)
  {
    var b, f, s := base.entries[key], first.entries[key], second.entries[key];
    Merged(Merged(b, f), s) == Merged(b, Merged(f, s))
  }

  lemma ComposeByKeys(base: Value, first: Value, second: Value)
    requires base.Node? && first.Node? && second.Node?
    ensures Merged(Merged(base, first), second) == Merged(base, Merged(first, second))
      <==> forall key :: InAll(base, first, second, key) ==> SameOrder(base, first, second, key)
  {
    var l, r := Merged(Merged(base, first), second).entries, Merged(base, Merged(first, second)).entries;
    assert l.Keys == r.Keys;
    forall key | key in l && !InAll(base, first, second, key) ensures l[key] == r[key] {}
    forall key | InAll(base, first, second, key) ensures l[key] == r[key] <==> SameOrder(base, first, second, key) {}
    if forall key :: InAll(base, first, second, key) ==> SameOrder(base, first, second, key) {
      assert l == r;
    }
  }

  predicate ResurrectsUnder(base: Value, first: Value, second: Value, key: string, path: seq<string>)
    requires base.Node? && first.Node? && second.Node?
  {
    InAll(base, first, second, key) && Resurrects(base.entries[key], first.entries[key], second.entries[key], path)
  }

  lemma ResurrectsByKeys(base: Value, first: Value, second: Value)
    requires base.Node? && first.Node? && second.Node?
    ensures (exists path :: Resurrects(base, first, second, path)) <==>
      exists key, path :: ResurrectsUnder(base, first, second, key, path)
  {
    if path :| Resurrects(base, first, second, path) {
      assert path != [];
      assert InAll(base, first, second, path[0]);
      assert ResurrectsUnder(base, first, second, path[0], path[1..]);
    }
    if key, path :| ResurrectsUnder(base, first, second, key, path) {
      var longer := [key] + path;
      assert longer[1..] == path;
      assert Resurrects(base, first, second, longer);
    }
  }

  /** A map, then a plain value, then a map again: the two orders differ. */
  lemma OverridesNeedNotCompose()
    ensures exists base, first, second: Value ::
      Merged(Merged(base, first), second) != Merged(base, Merged(first, second))
  {
    var inner := Node(map["a" := Leaf("1")]);
    var base, first, second := Node(map["x" := inner]), Node(map["x" := Leaf("2")]), Node(map["x" := Node(map[])]);
    assert Merged(inner, Node(map[])).entries["a"] == Leaf("1");
    assert Resurrects(base, first, second, ["x"]) by {
      assert ["x"][1..] == [];
    }
    OverridesCompose(base, first, second);
  }

  // ----- the override files of a config -----

  /** A serialized document: one that does not decode to a map, or one that does. */
  datatype Text = Malformed | Document(config: map<string, Value>)

  function OverrideNames(file: string, configMap: string): seq<string> { [file, configMap + "--" + file] }

  /** A missing or malformed override, or a malformed base, leaves the config as it is. */
  function AppliedOne(config: Text, overrides: map<string, Text>, name: string): Text {
    if name in overrides && config.Document? && overrides[name].Document?
    then Document(Merged(Node(config.config), Node(overrides[name].config)).entries)
    else config
  }

  function AppliedAll(config: Text, overrides: map<string, Text>, names: seq<string>): Text {
    if names == [] then config
    else AppliedOne(AppliedAll(config, overrides, names[..|names| - 1]), overrides, names[|names| - 1])
  }

  /** The loop of getConfig over the two override names. */
  method ApplyOverrides(base: Text, overrides: map<string, Text>, file: string, configMap: string) returns (config: Text)
    ensures config == AppliedAll(base, overrides, OverrideNames(file, configMap))
  {
    var names := [file, configMap + "--" + file];
    config := base;
    for i := 0 to |names|
      invariant config == AppliedAll(base, overrides, names[..i])
    {
      assert names[..i + 1][..i] == names[..i];
      if names[i] in overrides {
        var value := overrides[names[i]];
        if config.Document? && value.Document? {
          var merged := new Dict(config.config);
          MergeMapsRecursively(merged, value.config);
          config := Document(merged.entries);
        }
      }
    }
    assert names[..|names|] == names;
  }

  /** The override for this config map has the last word over the one for the bare file name. */
  lemma SpecificOverrideWins(base: Text, overrides: map<string, Text>, file: string, configMap: string, path: seq<string>)
    requires base.Document? && configMap + "--" + file in overrides && overrides[configMap + "--" + file].Document?
    requires At(Node(overrides[configMap + "--" + file].config), path).Some?
    requires At(Node(overrides[configMap + "--" + file].config), path).value.Leaf?
    ensures var config := AppliedAll(base, overrides, OverrideNames(file, configMap));
      config.Document? && At(Node(config.config), path) == At(Node(overrides[configMap + "--" + file].config), path)
  {
    var name, names := configMap + "--" + file, OverrideNames(file, configMap);
    assert names[..1] == [file] && [file][..0] == [];
    var first := AppliedAll(base, overrides, names[..1]);
    assert AppliedAll(base, overrides, [file]) == AppliedOne(AppliedAll(base, overrides, [file][..0]), overrides, file);
    OverrideLeafWins(Node(first.config), Node(overrides[name].config), path);
  }
}
