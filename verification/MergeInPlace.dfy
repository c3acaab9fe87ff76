/** overrideValues as the code has it: a recursion that writes into the target's map nodes. */
module MergeInPlace {
  import opened Merge

  class MapNode {
    var entries: map<string, Item>

    constructor ()
      ensures entries == map[]
    {
      entries := map[];
    }
  }

  datatype Item = Scalar(text: string) | Ref(node: MapNode)

  /** The tree that hangs off a map node: its values, the nodes that carry them, and a footprint of those nodes. */
  datatype Shape = SLeaf(text: string) | SNode(obj: MapNode, repr: set<MapNode>, kids: map<string, Shape>)

  ghost function Repr(s: Shape): set<MapNode> {
    if s.SLeaf? then {} else s.repr
  }

  ghost function Val(s: Shape): Value {
    match s
    case SLeaf(text) => Leaf(text)
    case SNode(_, _, kids) => Tree(map k | k in kids :: Val(kids[k]))
  }

  /** Every node of the tree lies in its footprint. */
  ghost predicate Framed(s: Shape) {
    match s
    case SLeaf(_) => true
    case SNode(obj, repr, kids) => obj in repr && forall k :: k in kids ==> Framed(kids[k]) && Repr(kids[k]) <= repr
  }

  /** Beyond that, the root and the children have disjoint footprints: no map node occurs twice. */
  ghost predicate TreeShaped(s: Shape) {
    match s
    case SLeaf(_) => true
    case SNode(obj, repr, kids) =>
      && Framed(s)
      && (forall k :: k in kids ==> TreeShaped(kids[k]) && obj !in Repr(kids[k]))
      && (forall k, j :: k in kids && j in kids && k != j ==> Repr(kids[k]) !! Repr(kids[j]))
  }

  /** An entry that stands for the tree `s`. */
  ghost predicate Carries(item: Item, s: Shape) {
    match s
    case SLeaf(text) => item == Scalar(text)
    case SNode(o, _, _) => item == Ref(o)
  }

  /** The heap holds exactly the tree `s`. */
  ghost predicate Valid(s: Shape)
    requires Framed(s)
    reads Repr(s)
  {
    match s
    case SLeaf(_) => true
    case SNode(obj, repr, kids) =>
      && obj.entries.Keys == kids.Keys
      && forall k :: k in kids ==> Carries(obj.entries[k], kids[k]) && Valid(kids[k])
  }

  /** `s` with `kid` in place of its child under `k`. */
  ghost function WithKid(s: Shape, k: string, kid: Shape): Shape
    requires s.SNode?
  {
    SNode(s.obj, s.repr + Repr(kid), s.kids[k := kid])
  }

  lemma {:induction false} WithKidTreeShaped(s: Shape, k: string, kid: Shape)
    requires s.SNode? && TreeShaped(s) && TreeShaped(kid) && s.obj !in Repr(kid)
    requires forall j :: j in s.kids && j != k ==> Repr(s.kids[j]) !! Repr(kid)
    ensures TreeShaped(WithKid(s, k, kid))
  {
    var kids' := s.kids[k := kid];
    forall j | j in kids' ensures Framed(kids'[j]) && TreeShaped(kids'[j]) && s.obj !in Repr(kids'[j]) {
      if j != k { assert kids'[j] == s.kids[j]; }
    }
    forall i, j | i in kids' && j in kids' && i != j ensures Repr(kids'[i]) !! Repr(kids'[j]) {
      if i != k && j != k { assert kids'[i] == s.kids[i] && kids'[j] == s.kids[j]; }
    }
  }

  /** All children of `s` other than `k` are in place. */
  ghost predicate ValidBut(s: Shape, k: string)
    requires s.SNode? && Framed(s)
    reads s.repr
  {
    && (forall j :: j in s.kids && j != k ==>
          j in s.obj.entries && Carries(s.obj.entries[j], s.kids[j]) && Valid(s.kids[j]))
    && (forall j :: j in s.obj.entries && j != k ==> j in s.kids)
  }

  lemma {:induction false} ValidWithKid(s: Shape, k: string, kid: Shape)
    requires s.SNode? && Framed(s) && Framed(kid) && ValidBut(s, k) && Valid(kid)
    requires k in s.obj.entries && Carries(s.obj.entries[k], kid)
    ensures Framed(WithKid(s, k, kid)) && Valid(WithKid(s, k, kid))
  {
    var s' := WithKid(s, k, kid);
    forall j | j in s'.kids ensures Framed(s'.kids[j]) && Repr(s'.kids[j]) <= s'.repr {
      if j != k { assert s'.kids[j] == s.kids[j]; }
    }
    assert s.obj.entries.Keys == s'.kids.Keys;
  }

  // ----- progress of the loop over the override keys -----

  /** `cur` is `ts` with the keys outside `left` already overridden. */
  ghost predicate Progress(ts: Shape, os: Shape, cur: Shape, left: set<string>) {
    && ts.SNode? && os.SNode? && cur.SNode? && cur.obj == ts.obj
    && (forall k :: k in left ==>
          (k in cur.kids <==> k in ts.kids) && (k in ts.kids ==> cur.kids[k] == ts.kids[k]))
    && var m := Merged(Val(ts).kids, Val(os));
    && (forall k :: k !in left ==> (k in cur.kids <==> k in m))
    && (forall k :: k !in left && k in cur.kids ==> Val(cur.kids[k]) == m[k])
  }

  lemma ProgressStart(ts: Shape, os: Shape)
    requires ts.SNode? && os.SNode?
    ensures Progress(ts, os, ts, os.kids.Keys)
  {
  }

  lemma {:induction false} ProgressEnd(ts: Shape, os: Shape, cur: Shape)
    requires Progress(ts, os, cur, {})
    ensures Val(cur) == Tree(Merged(Val(ts).kids, Val(os)))
  {
    assert Val(cur).kids == Merged(Val(ts).kids, Val(os));
  }

  /** The value that key `k` must end with. */
  ghost function KidMerged(cur: Shape, k: string, kid: Shape): Value
    requires cur.SNode?
  {
    match kid
    case SLeaf(text) => Leaf(text)
    case SNode(_, _, _) => Tree(Merged(SubMap(Val(cur).kids, k), Val(kid)))
  }

  lemma {:induction false} ProgressStep(ts: Shape, os: Shape, cur: Shape, left: set<string>, k: string, kid': Shape)
    requires Progress(ts, os, cur, left) && k in left && left <= os.kids.Keys
    requires Val(kid') == KidMerged(cur, k, os.kids[k])
    ensures Progress(ts, os, WithKid(cur, k, kid'), left - {k})
  {
    assert SubMap(Val(cur).kids, k) == SubMap(Val(ts).kids, k);
    var m := Merged(Val(ts).kids, Val(os));
    assert k in m && m[k] == Val(kid');
  }

  // ----- the code -----

  /** Stores a non-map value. */
  method StoreScalar(target: MapNode, k: string, text: string, ghost cur: Shape)
    requires cur.SNode? && cur.obj == target && TreeShaped(cur) && Valid(cur)
    modifies target
    ensures TreeShaped(WithKid(cur, k, SLeaf(text))) && Valid(WithKid(cur, k, SLeaf(text)))
  {
    WithKidTreeShaped(cur, k, SLeaf(text));
    target.entries := target.entries[k := Scalar(text)];
    assert ValidBut(cur, k);
    ValidWithKid(cur, k, SLeaf(text));
  }

  lemma {:induction false} SameKid(s: Shape, k: string)
    requires s.SNode? && Framed(s) && k in s.kids
    ensures WithKid(s, k, s.kids[k]) == s
  {
    assert s.kids[k := s.kids[k]] == s.kids && s.repr + Repr(s.kids[k]) == s.repr;
  }

  /** Stores an empty map node that is not yet part of the tree. */
  method StoreEmpty(target: MapNode, k: string, node: MapNode, ghost cur: Shape, ghost sub: Shape)
    requires cur.SNode? && cur.obj == target && TreeShaped(cur) && Valid(cur)
    requires sub == SNode(node, {node}, map[]) && node.entries == map[] && node !in cur.repr
    modifies target
    ensures TreeShaped(WithKid(cur, k, sub)) && Valid(WithKid(cur, k, sub))
  {
    WithKidTreeShaped(cur, k, sub);
    target.entries := target.entries[k := Ref(node)];
    assert ValidBut(cur, k);
    ValidWithKid(cur, k, sub);
  }

  /** The target's map node under `k`, created when there is none. */
  method SubMapAt(target: MapNode, k: string, ghost cur: Shape) returns (subMap: MapNode, ghost sub: Shape)
    requires cur.SNode? && cur.obj == target && TreeShaped(cur) && Valid(cur)
    modifies target
    ensures sub.SNode? && sub.obj == subMap && Val(sub).kids == SubMap(Val(cur).kids, k)
    ensures TreeShaped(WithKid(cur, k, sub)) && Valid(WithKid(cur, k, sub)) && fresh(sub.repr - cur.repr)
  {
    if k in target.entries && target.entries[k].Ref? {
      subMap := target.entries[k].node;
      sub := cur.kids[k];
      SameKid(cur, k);
    } else {
      subMap := new MapNode();
      sub := SNode(subMap, {subMap}, map[]);
      StoreEmpty(target, k, subMap, cur, sub);
    }
  }

  /** Merges the map node `val` into the target's map node under `k`. */
  method OverrideMap(target: MapNode, k: string, val: MapNode, ghost cur: Shape, ghost kid: Shape)
    returns (ghost kid': Shape)
    requires cur.SNode? && cur.obj == target && TreeShaped(cur) && Valid(cur)
    requires kid.SNode? && kid.obj == val && Framed(kid) && Valid(kid) && cur.repr !! kid.repr
    modifies cur.repr
    ensures Val(kid') == KidMerged(cur, k, kid) && fresh(Repr(kid') - cur.repr)
    ensures TreeShaped(WithKid(cur, k, kid')) && Valid(WithKid(cur, k, kid'))
    decreases kid, 3
  {
    ghost var sub;
    var subMap;
    subMap, sub := SubMapAt(target, k, cur);
    ghost var mid := WithKid(cur, k, sub);
    assert mid.kids[k] == sub;
    kid' := MergeKid(mid, k, subMap, val, kid);
    ReplacedTwice(cur, k, sub, kid');
  }

  /** The recursive call on a child that is a map node already. */
  method MergeKid(ghost cur: Shape, ghost k: string, subMap: MapNode, val: MapNode, ghost kid: Shape)
    returns (ghost kid': Shape)
    requires cur.SNode? && TreeShaped(cur) && Valid(cur)
    requires k in cur.kids && cur.kids[k].SNode? && cur.kids[k].obj == subMap
    requires kid.SNode? && kid.obj == val && Framed(kid) && Valid(kid) && cur.repr !! kid.repr
    modifies cur.kids[k].repr
    ensures Val(kid') == Tree(Merged(Val(cur.kids[k]).kids, Val(kid)))
    ensures kid'.SNode? && kid'.obj == subMap && fresh(kid'.repr - cur.kids[k].repr)
    ensures TreeShaped(WithKid(cur, k, kid')) && Valid(WithKid(cur, k, kid'))
    decreases kid, 2
  {
    kid' := OverrideValues(subMap, val, cur.kids[k], kid);
    WithKidTreeShaped(cur, k, kid');
    assert ValidBut(cur, k);
    ValidWithKid(cur, k, kid');
  }

  /** Footprints that cover the same children are interchangeable. */
  lemma {:induction false} Refoot(s: Shape, s': Shape)
    requires s.SNode? && s'.SNode? && s.obj == s'.obj && s.kids == s'.kids && TreeShaped(s) && Valid(s)
    requires s.obj in s'.repr && forall k :: k in s.kids ==> Repr(s.kids[k]) <= s'.repr
    ensures TreeShaped(s') && Valid(s')
  {
  }

  /** The child that was there in between leaves no trace. */
  lemma {:induction false} ReplacedTwice(s: Shape, k: string, kid: Shape, kid': Shape)
    requires s.SNode? && Framed(s) && TreeShaped(WithKid(WithKid(s, k, kid), k, kid'))
    requires Valid(WithKid(WithKid(s, k, kid), k, kid'))
    ensures TreeShaped(WithKid(s, k, kid')) && Valid(WithKid(s, k, kid'))
  {
    var twice, once := WithKid(WithKid(s, k, kid), k, kid'), WithKid(s, k, kid');
    assert twice.kids == once.kids;
    forall j | j in once.kids ensures Repr(once.kids[j]) <= once.repr {
      if j != k { assert once.kids[j] == s.kids[j]; }
    }
    Refoot(twice, once);
  }

  /** One turn of the loop. */
  method OverrideEntry(target: MapNode, overrides: MapNode, k: string, ghost cur: Shape, ghost os: Shape)
    returns (ghost kid': Shape, ghost extra: set<MapNode>)
    requires cur.SNode? && cur.obj == target && TreeShaped(cur) && Valid(cur)
    requires os.SNode? && os.obj == overrides && Framed(os) && Valid(os) && k in os.kids && cur.repr !! os.repr
    modifies cur.repr
    ensures Val(kid') == KidMerged(cur, k, os.kids[k])
    ensures TreeShaped(WithKid(cur, k, kid')) && Valid(WithKid(cur, k, kid')) && Valid(os)
    ensures fresh(extra) && WithKid(cur, k, kid').repr == cur.repr + extra && extra !! os.repr
    decreases os, 0
  {
    match overrides.entries[k] {
      case Scalar(text) =>
        StoreScalar(target, k, text, cur);
        kid' := SLeaf(text);
      case Ref(node) =>
        kid' := OverrideMap(target, k, node, cur, os.kids[k]);
    }
    extra := Repr(kid') - cur.repr;
  }

  /** Makes the target's tree the merge of the two trees, for any order in which the keys are visited. */
  method OverrideValues(target: MapNode, overrides: MapNode, ghost ts: Shape, ghost os: Shape)
    returns (ghost ts': Shape)
    requires ts.SNode? && ts.obj == target && TreeShaped(ts) && Valid(ts)
    requires os.SNode? && os.obj == overrides && Framed(os) && Valid(os)
    requires ts.repr !! os.repr
    modifies ts.repr
    ensures ts'.SNode? && ts'.obj == target && TreeShaped(ts') && Valid(ts')
    ensures Val(ts') == Tree(Merged(Val(ts).kids, Val(os)))
    ensures fresh(ts'.repr - ts.repr)
    ensures Valid(os) && ts'.repr !! os.repr
    decreases os, 1
  {
    ts' := ts;
    var left := overrides.entries.Keys;
    ProgressStart(ts, os);
    ghost var added: set<MapNode> := {};
    while left != {}
      invariant left <= os.kids.Keys && Progress(ts, os, ts', left)
      invariant TreeShaped(ts') && Valid(ts') && Valid(os)
      invariant ts'.repr == ts.repr + added && fresh(added) && ts'.repr !! os.repr
    {
      var k :| k in left;
      ghost var kid', extra := OverrideEntry(target, overrides, k, ts', os);
      ProgressStep(ts, os, ts', left, k, kid');
      added := added + extra;
      ts' := WithKid(ts', k, kid');
      left := left - {k};
    }
    ProgressEnd(ts, os, ts');
  }
}
