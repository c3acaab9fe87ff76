/** The deep merge of chart values (internal/helm/helm.go), as a function on trees, and its algebra. */
module Merge {

  /** A values tree: a map node, or anything that is not a map. */
  datatype Value = Leaf(text: string) | Tree(kids: map<string, Value>)

  /** The map node of `t` under `k`, or an empty one when there is no map node. */
  function SubMap(t: map<string, Value>, k: string): map<string, Value> {
    if k in t && t[k].Tree? then t[k].kids else map[]
  }

  function Merged(t: map<string, Value>, o: Value): map<string, Value>
    requires o.Tree?
    decreases o
  {
    map k | k in t.Keys + o.kids.Keys ::
      if k !in o.kids then t[k]
      else if o.kids[k].Tree? then Tree(Merged(SubMap(t, k), o.kids[k]))
      else o.kids[k]
  }

  function MergeTrees(t: Value, o: Value): Value
    requires t.Tree? && o.Tree?
  {
    Tree(Merged(t.kids, o))
  }

  lemma {:induction false} MergeEmptyTarget(o: Value)
    requires o.Tree?
    ensures Merged(map[], o) == o.kids
    decreases o
  {
    forall k | k in o.kids && o.kids[k].Tree? ensures Tree(Merged(map[], o.kids[k])) == o.kids[k] {
      MergeEmptyTarget(o.kids[k]);
    }
  }

  lemma {:induction false} MergeEmptyOverrides(t: map<string, Value>)
    ensures Merged(t, Tree(map[])) == t
  {
  }

  /** Overriding twice with the same values changes nothing more. */
  lemma {:induction false} MergeIdempotent(t: map<string, Value>, o: Value)
    requires o.Tree?
    ensures Merged(Merged(t, o), o) == Merged(t, o)
    decreases o
  {
    var m := Merged(t, o);
    forall k | k in o.kids && o.kids[k].Tree? ensures Merged(SubMap(m, k), o.kids[k]) == SubMap(m, k) {
      MergeIdempotent(SubMap(t, k), o.kids[k]);
    }
    assert Merged(m, o).Keys == m.Keys;
    forall k | k in m ensures Merged(m, o)[k] == m[k] {
    }
  }

  /** Somewhere `a` has a non-map where `b` has a map. */
  ghost predicate Clash(a: Value, b: Value)
    requires a.Tree? && b.Tree?
    decreases b
  {
    exists k :: k in a.kids && k in b.kids && b.kids[k].Tree?
                && (a.kids[k].Tree? ==> Clash(a.kids[k], b.kids[k]))
  }

  lemma {:induction false} MergeAssociative(t: map<string, Value>, a: Value, b: Value)
    requires a.Tree? && b.Tree? && !Clash(a, b)
    ensures Merged(Merged(t, a), b) == Merged(t, MergeTrees(a, b))
    decreases b
  {
    var ta, ab := Merged(t, a), MergeTrees(a, b);
    var l, r := Merged(ta, b), Merged(t, ab);
    assert l.Keys == r.Keys;
    forall k | k in l.Keys ensures l[k] == r[k] {
      if k in b.kids && b.kids[k].Tree? {
        if k in a.kids {
          assert a.kids[k].Tree? && !Clash(a.kids[k], b.kids[k]);
          MergeAssociative(SubMap(t, k), a.kids[k], b.kids[k]);
        } else {
          assert SubMap(ta, k) == SubMap(t, k);
          MergeEmptyTarget(b.kids[k]);
        }
      }
    }
  }

  /** A key outside a finite set of keys. */
  lemma FreshKey(keys: set<string>) returns (k: string)
    ensures k !in keys
  {
    k := Longer(keys);
    if k in keys { LongerIsFresh(keys, k); }
  }

  ghost function Longer(keys: set<string>): string {
    if keys == {} then ""
    else var x :| x in keys; Longer(keys - {x}) + x + "x"
  }

  lemma {:induction false} LongerIsFresh(keys: set<string>, y: string)
    requires y in keys
    ensures |Longer(keys)| > |y|
  {
    var x :| x in keys && Longer(keys) == Longer(keys - {x}) + x + "x";
    if x != y { LongerIsFresh(keys - {x}, y); }
  }

  /** A target that separates two submaps separates the maps that hold them. */
  lemma {:induction false} SeparatesBelow(a: Value, b: Value, k: string, t: map<string, Value>)
    requires a.Tree? && b.Tree? && k in a.kids && k in b.kids && a.kids[k].Tree? && b.kids[k].Tree?
    requires Merged(Merged(t, a.kids[k]), b.kids[k]) != Merged(t, MergeTrees(a.kids[k], b.kids[k]))
    ensures var t' := map[k := Tree(t)]; Merged(Merged(t', a), b) != Merged(t', MergeTrees(a, b))
  {
    var t', ab := map[k := Tree(t)], MergeTrees(a, b);
    assert SubMap(t', k) == t;
    assert Merged(Merged(t', a), b)[k] == Tree(Merged(Merged(t, a.kids[k]), b.kids[k]));
    assert Merged(t', ab)[k] == Tree(Merged(t, ab.kids[k]));
  }

  /** A map below a non-map of `a` and a map of `b` survives only one of the groupings. */
  lemma {:induction false} SeparatesAtLeaf(a: Value, b: Value, k: string, spare: string)
    requires a.Tree? && b.Tree? && k in a.kids && k in b.kids && a.kids[k].Leaf? && b.kids[k].Tree?
    requires spare !in b.kids[k].kids
    ensures var t := map[k := Tree(map[spare := Leaf("")])]; Merged(Merged(t, a), b) != Merged(t, MergeTrees(a, b))
  {
    var t, ab := map[k := Tree(map[spare := Leaf("")])], MergeTrees(a, b);
    MergeEmptyTarget(b.kids[k]);
    assert Merged(Merged(t, a), b)[k] == b.kids[k];
    assert ab.kids[k] == b.kids[k];
    assert Merged(t, ab)[k] == Tree(Merged(SubMap(t, k), b.kids[k]));
    assert spare in Merged(SubMap(t, k), b.kids[k]);
  }

  /** A target on which the two groupings differ, whenever there is a clash. */
  lemma {:induction false} ClashSeparates(a: Value, b: Value) returns (t: map<string, Value>)
    requires a.Tree? && b.Tree? && Clash(a, b)
    ensures Merged(Merged(t, a), b) != Merged(t, MergeTrees(a, b))
    decreases b
  {
    var k :| k in a.kids && k in b.kids && b.kids[k].Tree?
             && (a.kids[k].Tree? ==> Clash(a.kids[k], b.kids[k]));
    if a.kids[k].Tree? {
      var t' := ClashSeparates(a.kids[k], b.kids[k]);
      SeparatesBelow(a, b, k, t');
      t := map[k := Tree(t')];
    } else {
      var spare := FreshKey(b.kids[k].kids.Keys);
      SeparatesAtLeaf(a, b, k, spare);
      t := map[k := Tree(map[spare := Leaf("")])];
    }
  }

  /** Merging groups freely, for every target, exactly when no non-map of `a` meets a map of `b`. */
  lemma {:induction false} MergeAssociativeIffNoClash(a: Value, b: Value)
    requires a.Tree? && b.Tree?
    ensures (forall t :: Merged(Merged(t, a), b) == Merged(t, MergeTrees(a, b))) <==> !Clash(a, b)
  {
    if Clash(a, b) {
      var t := ClashSeparates(a, b);
    } else {
      forall t ensures Merged(Merged(t, a), b) == Merged(t, MergeTrees(a, b)) {
        MergeAssociative(t, a, b);
      }
    }
  }

  // ----- key paths -----

  datatype Found = Absent | Present(value: Value)

  function Lookup(v: Value, path: seq<string>): Found
    decreases |path|
  {
    if path == [] then Present(v)
    else if v.Tree? && path[0] in v.kids then Lookup(v.kids[path[0]], path[1..])
    else Absent
  }

  /** Some prefix of `path` ends at a non-map value of `o`. */
  predicate HitsLeaf(o: Value, path: seq<string>)
    decreases |path|
  {
    if o.Leaf? then true
    else path != [] && path[0] in o.kids && HitsLeaf(o.kids[path[0]], path[1..])
  }

  /** `path` leaves `o` at a missing key while `t` still has map nodes along it. */
  predicate LeavesOverrides(t: Value, o: Value, path: seq<string>)
    decreases |path|
  {
    && o.Tree? && t.Tree? && path != []
    && (path[0] in o.kids ==>
          path[0] in t.kids && LeavesOverrides(t.kids[path[0]], o.kids[path[0]], path[1..]))
  }

  /** `t` runs out of map nodes along `path` while `o` is still a map. */
  predicate LeavesTarget(t: Value, o: Value, path: seq<string>)
    decreases |path|
  {
    && o.Tree? && t.Tree? && path != [] && path[0] in o.kids && o.kids[path[0]].Tree?
    && (path[0] in t.kids && t.kids[path[0]].Tree? ==>
          LeavesTarget(t.kids[path[0]], o.kids[path[0]], path[1..]))
  }

  /** Override leaves win; paths the overrides do not reach keep the target; new maps come from the overrides. */
  lemma {:induction false} MergeLookup(t: Value, o: Value, path: seq<string>)
    requires t.Tree? && o.Tree?
    ensures HitsLeaf(o, path) ==> Lookup(MergeTrees(t, o), path) == Lookup(o, path)
    ensures LeavesOverrides(t, o, path) ==> Lookup(MergeTrees(t, o), path) == Lookup(t, path)
    ensures LeavesTarget(t, o, path) ==> Lookup(MergeTrees(t, o), path) == Lookup(o, path)
    decreases |path|
  {
    if path != [] {
      var k := path[0];
      var m := Merged(t.kids, o);
      if k in o.kids && o.kids[k].Tree? {
        assert m[k] == MergeTrees(Tree(SubMap(t.kids, k)), o.kids[k]);
        if k in t.kids && t.kids[k].Tree? {
          assert Tree(SubMap(t.kids, k)) == t.kids[k];
          MergeLookup(t.kids[k], o.kids[k], path[1..]);
        } else {
          MergeEmptyTarget(o.kids[k]);
          assert m[k] == o.kids[k];
          assert k in t.kids ==> !LeavesOverrides(t.kids[k], o.kids[k], path[1..]);
        }
      } else if k in o.kids && k in t.kids {
        assert !LeavesOverrides(t.kids[k], o.kids[k], path[1..]);
      }
    }
  }

  /** Every path falls under one of the three laws, or ends at a map node of both trees. */
  lemma {:induction false} LookupLawsComplete(t: Value, o: Value, path: seq<string>)
    requires t.Tree? && o.Tree?
    ensures HitsLeaf(o, path) || LeavesOverrides(t, o, path) || LeavesTarget(t, o, path)
            || (&& Lookup(t, path).Present? && Lookup(t, path).value.Tree?
                && Lookup(o, path).Present? && Lookup(o, path).value.Tree?
                && Lookup(MergeTrees(t, o), path)
                   == Present(MergeTrees(Lookup(t, path).value, Lookup(o, path).value)))
    decreases |path|
  {
    if path != [] && path[0] in o.kids && o.kids[path[0]].Tree? {
      var k := path[0];
      if k in t.kids && t.kids[k].Tree? {
        assert Tree(SubMap(t.kids, k)) == t.kids[k];
        LookupLawsComplete(t.kids[k], o.kids[k], path[1..]);
      }
    }
  }
}
