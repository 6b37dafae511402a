/** Payload trees: reading a dotted path, and the deep merge behind the DEEP_MERGE input strategy. */
module JsonValues {

  import opened Common

  datatype Json = Leaf(v: int) | Obj(fields: map<string, Json>)

  /* ---- Paths ---- */

  /** The value a path leads to; `None` where the engine raises KeyError. */
  function Extract(value: Json, path: seq<string>): Option<Json> {
    if path == [] then Some(value)
    else if value.Obj? && path[0] in value.fields then Extract(value.fields[path[0]], path[1..])
    else None
  }

  lemma {:induction false} ExtractAppend(value: Json, path: seq<string>, rest: seq<string>)
    ensures Extract(value, path + rest)
            == match Extract(value, path) { case None => None case Some(v) => Extract(v, rest) }
  {
    if path == [] {
      assert path + rest == rest;
    } else {
      assert (path + rest)[1..] == path[1..] + rest;
      if value.Obj? && path[0] in value.fields {
        ExtractAppend(value.fields[path[0]], path[1..], rest);
      }
    }
  }

  /** `trail` lists the values met on the way from `value` along `path` to `found`. */
  predicate Leads(value: Json, path: seq<string>, found: Json, trail: seq<Json>) {
    && |trail| == |path| + 1 && trail[0] == value && trail[|path|] == found
    && forall i :: 0 <= i < |path| ==>
         trail[i].Obj? && path[i] in trail[i].fields && trail[i].fields[path[i]] == trail[i + 1]
  }

  ghost predicate Reaches(value: Json, path: seq<string>, found: Json) {
    exists trail :: Leads(value, path, found, trail)
  }

  lemma {:induction false} ExtractLeads(value: Json, path: seq<string>) returns (trail: seq<Json>)
    requires Extract(value, path).Some?
    ensures Leads(value, path, Extract(value, path).value, trail)
  {
    if path == [] {
      trail := [value];
    } else {
      var rest := ExtractLeads(value.fields[path[0]], path[1..]);
      trail := [value] + rest;
      forall i | 0 <= i < |path|
        ensures trail[i].Obj? && path[i] in trail[i].fields && trail[i].fields[path[i]] == trail[i + 1]
      {
        if i > 0 {
          assert path[i] == path[1..][i - 1] && trail[i] == rest[i - 1] && trail[i + 1] == rest[i];
        }
      }
    }
  }

  lemma {:induction false} LeadsExtracts(value: Json, path: seq<string>, found: Json, trail: seq<Json>)
    requires Leads(value, path, found, trail)
    ensures Extract(value, path) == Some(found)
  {
    if path != [] {
      assert trail[0].fields[path[0]] == trail[0 + 1];
      forall i | 0 <= i < |path| - 1
        ensures trail[1..][i].Obj? && path[1..][i] in trail[1..][i].fields
                && trail[1..][i].fields[path[1..][i]] == trail[1..][i + 1]
      {
        assert trail[i + 1].Obj?;
        assert trail[i + 1].fields[path[i + 1]] == trail[i + 1 + 1];
      }
      LeadsExtracts(trail[1], path[1..], found, trail[1..]);
    }
  }

  /** A path reads a value exactly when dicts lead to it, one for each segment. */
  lemma ExtractIff(value: Json, path: seq<string>, found: Json)
    ensures Extract(value, path) == Some(found) <==> Reaches(value, path, found)
  {
    if Extract(value, path).Some? {
      var trail := ExtractLeads(value, path);
    }
    if Reaches(value, path, found) {
      var trail :| Leads(value, path, found, trail);
      LeadsExtracts(value, path, found, trail);
    }
  }

  method ExtractPath(value: Json, path: seq<string>) returns (r: Option<Json>)
    ensures r == Extract(value, path)
  {
    var current := value;
    for i := 0 to |path|
      invariant Extract(value, path) == Extract(current, path[i..])
    {
      if current.Leaf? || path[i] !in current.fields {
        return None;
      }
      current := current.fields[path[i]];
    }
    return Some(current);
  }

  /* ---- Deep merge ---- */

  /** Two dicts merge key by key; in every other combination the incoming value wins. */
  function Merge(base: Json, incoming: Json): Json
    decreases incoming
  {
    if base.Obj? && incoming.Obj? then
      Obj(map k | k in base.fields.Keys + incoming.fields.Keys ::
            if k !in incoming.fields then base.fields[k]
            else if k in base.fields then Merge(base.fields[k], incoming.fields[k])
            else incoming.fields[k])
    else incoming
  }

  method DeepMerge(base: Json, incoming: Json) returns (merged: Json)
    requires base.Obj? && incoming.Obj?
    ensures merged == Merge(base, incoming)
    decreases incoming
  {
    var result := base.fields;
    var todo := incoming.fields.Keys;
    while todo != {}
      invariant todo <= incoming.fields.Keys
      invariant result.Keys == base.fields.Keys + (incoming.fields.Keys - todo)
      invariant forall k :: k in result ==>
        result[k] == if k in todo then base.fields[k] else Merge(base, incoming).fields[k]
      decreases todo
    {
      var key :| key in todo;
      if key in result && result[key].Obj? && incoming.fields[key].Obj? {
        var sub := DeepMerge(result[key], incoming.fields[key]);
        result := result[key := sub];
      } else {
        result := result[key := incoming.fields[key]];
      }
      todo := todo - {key};
    }
    merged := Obj(result);
  }

  /** A path leaves the tree at a key that some dict of the tree does not have. */
  predicate Untouched(tree: Json, path: seq<string>) {
    && path != []
    && tree.Obj?
    && (path[0] in tree.fields ==> Untouched(tree.fields[path[0]], path[1..]))
  }

  /** Where the incoming tree has a leaf, or the path runs into one, the merge reads what it reads. */
  lemma {:induction false} MergeReadsIncoming(base: Json, incoming: Json, path: seq<string>)
    requires !Untouched(incoming, path)
    requires Extract(incoming, path).Some? ==> Extract(incoming, path).value.Leaf?
    ensures Extract(Merge(base, incoming), path) == Extract(incoming, path)
    decreases path
  {
    if path != [] && base.Obj? && incoming.Obj? && path[0] in base.fields {
      MergeReadsIncoming(base.fields[path[0]], incoming.fields[path[0]], path[1..]);
    }
  }

  /** A path the incoming tree does not touch reads the base, present or absent alike. */
  lemma {:induction false} MergeReadsBase(base: Json, incoming: Json, path: seq<string>)
    requires base.Obj? && Untouched(incoming, path)
    ensures Extract(Merge(base, incoming), path) == Extract(base, path)
    decreases path
  {
    var k := path[0];
    if k in incoming.fields {
      if k in base.fields && base.fields[k].Obj? {
        MergeReadsBase(base.fields[k], incoming.fields[k], path[1..]);
      } else {
        UntouchedReadsNothing(incoming.fields[k], path[1..]);
      }
    }
  }

  lemma {:induction false} UntouchedReadsNothing(tree: Json, path: seq<string>)
    requires Untouched(tree, path)
    ensures Extract(tree, path) == None
    decreases path
  {
    if path[0] in tree.fields {
      UntouchedReadsNothing(tree.fields[path[0]], path[1..]);
    }
  }

  /** The remaining paths end at a dict of the incoming tree, and what the base has there is merged
      with it. With the two lemmas above, every read of a merge is accounted for. */
  lemma {:induction false} MergeReadsBoth(base: Json, incoming: Json, path: seq<string>)
    requires Extract(incoming, path).Some? && Extract(incoming, path).value.Obj?
    ensures !Untouched(incoming, path)
    ensures var here, there := Extract(incoming, path).value, Extract(base, path);
            Extract(Merge(base, incoming), path)
            == Some(if there.Some? then Merge(there.value, here) else here)
    decreases path
  {
    if path != [] {
      var k := path[0];
      if base.Obj? && k in base.fields {
        MergeReadsBoth(base.fields[k], incoming.fields[k], path[1..]);
      } else {
        MergeReadsBoth(Leaf(0), incoming.fields[k], path[1..]);
        assert path[1..] == [] || Extract(Leaf(0), path[1..]) == None;
      }
    }
  }

  lemma MergeIdentity(tree: Json)
    requires tree.Obj?
    ensures Merge(Obj(map[]), tree) == tree
    ensures Merge(tree, Obj(map[])) == tree
  {
    assert Merge(Obj(map[]), tree).fields == tree.fields;
    assert Merge(tree, Obj(map[])).fields == tree.fields;
  }

  lemma {:induction false} MergeIdempotent(tree: Json)
    ensures Merge(tree, tree) == tree
    decreases tree
  {
    if tree.Obj? {
      forall k | k in tree.fields ensures Merge(tree.fields[k], tree.fields[k]) == tree.fields[k] {
        MergeIdempotent(tree.fields[k]);
      }
      assert Merge(tree, tree).fields == tree.fields;
    }
  }

  /** Everything `base` could contribute is overwritten by `over`. */
  predicate Covers(over: Json, base: Json)
    decreases over
  {
    over.Obj? && base.Obj? ==>
      forall k | k in base.fields :: k in over.fields && Covers(over.fields[k], base.fields[k])
  }

  lemma {:induction false} CoversIffAbsorbs(over: Json, base: Json)
    ensures Covers(over, base) <==> Merge(base, over) == over
    decreases over
  {
    if over.Obj? && base.Obj? {
      var m := Merge(base, over).fields;
      forall k | k in base.fields && k in over.fields
        ensures Covers(over.fields[k], base.fields[k]) <==> m[k] == over.fields[k]
      {
        CoversIffAbsorbs(over.fields[k], base.fields[k]);
      }
      if Covers(over, base) {
        assert m == over.fields;
      } else {
        var k :| k in base.fields && !(k in over.fields && Covers(over.fields[k], base.fields[k]));
        assert k in m && (k in over.fields ==> m[k] != over.fields[k]);
      }
    }
  }

  /** The middle tree has a leaf where both outer trees have dicts, and the first would have
      contributed something to the last there. */
  predicate Clash(a: Json, b: Json, c: Json)
    decreases c
  {
    && a.Obj? && c.Obj?
    && if b.Obj? then
         exists k | k in c.fields ::
           k in a.fields && k in b.fields && Clash(a.fields[k], b.fields[k], c.fields[k])
       else !Covers(c, a)
  }

  /** Deep merge is associative exactly when no such clash occurs. */
  lemma {:induction false} MergeAssociativeIff(a: Json, b: Json, c: Json)
    ensures Merge(Merge(a, b), c) == Merge(a, Merge(b, c)) <==> !Clash(a, b, c)
    decreases c
  {
    if a.Obj? && c.Obj? {
      if b.Obj? {
        var left, right := Merge(Merge(a, b), c).fields, Merge(a, Merge(b, c)).fields;
        forall k | k in left
          ensures left[k] == right[k]
                  <==> !(k in a.fields && k in b.fields && k in c.fields
                         && Clash(a.fields[k], b.fields[k], c.fields[k]))
        {
          if k in a.fields && k in b.fields && k in c.fields {
            MergeAssociativeIff(a.fields[k], b.fields[k], c.fields[k]);
          }
        }
        assert left.Keys == right.Keys;
        if left != right {
          var k :| k in left && left[k] != right[k];
          assert Clash(a, b, c);
        }
      } else {
        CoversIffAbsorbs(c, a);
      }
    }
  }

  lemma MergeNotAssociative()
    ensures exists a: Json, b: Json, c: Json :: Merge(Merge(a, b), c) != Merge(a, Merge(b, c))
  {
    var a, b, c := Obj(map["y" := Leaf(1)]), Leaf(0), Obj(map[]);
    assert "y" in a.fields && "y" !in c.fields;
    assert Clash(a, b, c);
    MergeAssociativeIff(a, b, c);
  }
}
