/** The admission webhook for ApiEndpoints (internal/webhook/apiendpoints_webhook.go). */
module Admission {
  import opened ApiTypes
  import opened Sequences

  // ----- reference: what admission means for a namespace -----

  ghost predicate LiveIn(api: map<string, ApiEndpoints>, n: string) {
    n in api && !api[n].deleting
  }

  /** All paths of all live resources, protected and open together, are pairwise distinct. */
  ghost predicate UniqueLive(api: map<string, ApiEndpoints>) {
    && (forall n :: LiveIn(api, n) ==> NoDup(Paths(api[n].spec)))
    && (forall n, m :: LiveIn(api, n) && LiveIn(api, m) && n != m ==>
          Disjoint(Paths(api[n].spec), Paths(api[m].spec)))
  }

  /** Whether a create or update to `a` is let through. */
  ghost predicate Admitted(ns: string, krakends: map<string, Krakend>,
                           api: map<string, ApiEndpoints>, a: ApiEndpoints) {
    a.deleting
    || (&& KrakendName(ns, a.spec) in krakends
        && ProviderNamed(krakends[KrakendName(ns, a.spec)], a.spec.auth.name)
        && UniqueLive(api[a.name := a]))
  }

  ghost predicate NamesMatch(api: map<string, ApiEndpoints>) {
    forall n :: n in api ==> api[n].name == n
  }

  ghost predicate DistinctNames(items: seq<ApiEndpoints>) {
    forall i, j :: 0 <= i < j < |items| ==> items[i].name != items[j].name
  }

  /** `items` lists the namespace's resources, each once, in any order. */
  ghost predicate Enumerates(api: map<string, ApiEndpoints>, items: seq<ApiEndpoints>) {
    && DistinctNames(items)
    && (forall i :: 0 <= i < |items| ==> items[i].name in api && api[items[i].name] == items[i])
    && (forall n :: n in api ==> api[n] in items)
  }

  // ----- the code -----

  method ValidateAuth(k: Krakend, auth: Auth) returns (ok: bool)
    ensures ok <==> ProviderNamed(k, auth.name)
  {
    var found := false;
    for i := 0 to |k.providers|
      invariant !found && forall j :: 0 <= j < i ==> k.providers[j].name != auth.name
    {
      if k.providers[i].name == auth.name {
        found := true;
        break;
      }
    }
    return found;
  }

  /** What the list holds after the update is folded in. */
  function Others(items: seq<ApiEndpoints>, name: string): seq<ApiEndpoints> {
    if items == [] then []
    else (if items[0].name == name then [] else [items[0]]) + Others(items[1..], name)
  }

  function Matches(items: seq<ApiEndpoints>, name: string): nat {
    if items == [] then 0
    else (if items[0].name == name then 1 else 0) + Matches(items[1..], name)
  }

  function Copies(e: ApiEndpoints, n: nat): (r: seq<ApiEndpoints>)
    ensures |r| == n && forall i :: 0 <= i < n ==> r[i] == e
  {
    seq(n, _ => e)
  }

  function Replaced(items: seq<ApiEndpoints>, e: ApiEndpoints): seq<ApiEndpoints> {
    var m := Matches(items, e.name);
    Others(items, e.name) + Copies(e, if m == 0 then 1 else m)
  }

  lemma {:induction false} OthersAndMatches(items: seq<ApiEndpoints>, name: string)
    ensures |Others(items, name)| + Matches(items, name) == |items|
    ensures Matches(items, name) == 0 <==> forall i :: 0 <= i < |items| ==> items[i].name != name
    ensures Matches(items, name) == 0 ==> Others(items, name) == items
    ensures forall x :: x in Others(items, name) <==> x in items && x.name != name
  {
    if items != [] {
      OthersAndMatches(items[1..], name);
      assert items == [items[0]] + items[1..];
    }
  }

  /** The list once the backward pass has handled `done` and still has `todo` before it. */
  ghost function Passed(todo: seq<ApiEndpoints>, done: seq<ApiEndpoints>, e: ApiEndpoints): (r: seq<ApiEndpoints>) {
    todo + (Others(done, e.name) + Copies(e, Matches(done, e.name)))
  }

  /** One turn of the pass at item x: an appended copy lands beyond every position still to be visited. */
  lemma {:induction false} PassStep(todo: seq<ApiEndpoints>, x: ApiEndpoints, done: seq<ApiEndpoints>, e: ApiEndpoints)
    ensures var items, i := Passed(todo + [x], done, e), |todo|;
            && |items| == |todo| + 1 + |done| && items[i] == x
            && Passed(todo, [x] + done, e) == (if x.name == e.name then items[..i] + items[i + 1..] + [e] else items)
    ensures Matches([x] + done, e.name) == Matches(done, e.name) + (if x.name == e.name then 1 else 0)
  {
    OthersAndMatches(done, e.name);
    PassCons(x, done, e);
    var others, copies := Others(done, e.name), Copies(e, Matches(done, e.name));
    MoveToEnd(todo, x, others, copies, e);
    KeepInPlace(todo, x, others, copies);
  }

  lemma {:induction false} PassCons(x: ApiEndpoints, done: seq<ApiEndpoints>, e: ApiEndpoints)
    ensures var others, m := Others(done, e.name), Matches(done, e.name);
            if x.name == e.name
            then && Others([x] + done, e.name) == others && Matches([x] + done, e.name) == m + 1
                 && Copies(e, m + 1) == Copies(e, m) + [e]
            else && Others([x] + done, e.name) == [x] + others && Matches([x] + done, e.name) == m
  {
    assert ([x] + done)[1..] == done;
  }

  lemma {:induction false} PassEnds(todo: seq<ApiEndpoints>, done: seq<ApiEndpoints>, e: ApiEndpoints)
    requires todo == []
    ensures todo + done == done
    ensures Replaced(done, e) == Passed(todo, done, e) + (if Matches(done, e.name) == 0 then [e] else [])
  {
    assert Copies(e, 0) + [e] == Copies(e, 1);
    EmptyEnds(Others(done, e.name), Copies(e, 0), e);
  }

  lemma Associative<T>(a: seq<T>, b: seq<T>, c: seq<T>)
    ensures a + b + c == a + (b + c)
  {
  }

  lemma EmptyEnds<T>(a: seq<T>, b: seq<T>, e: T)
    ensures [] + (a + b) == a + b && a + b + [] == a + b && a + b + [e] == a + (b + [e])
  {
  }

  lemma MoveToEnd<T>(a: seq<T>, x: T, b: seq<T>, c: seq<T>, e: T)
    ensures var p := a + [x] + (b + c);
            && |p| == |a| + 1 + |b| + |c| && p[|a|] == x
            && p[..|a|] + p[|a| + 1..] + [e] == a + (b + (c + [e]))
  {
    SliceParts(a, x, b + c);
  }

  lemma KeepInPlace<T>(a: seq<T>, x: T, b: seq<T>, c: seq<T>)
    ensures a + ([x] + b + c) == a + [x] + (b + c)
  {
  }

  class EndpointsList {
    var items: seq<ApiEndpoints>

    constructor (items: seq<ApiEndpoints>)
      ensures this.items == items
    {
      this.items := items;
    }

    /** Backward pass that deletes each item of e's name and appends e for it, then checks the list. */
    method Validate(e: ApiEndpoints) returns (ok: bool)
      modifies this
      ensures items == Replaced(old(items), e)
      ensures ok <==> NoDup(LivePaths(Replaced(old(items), e)))
    {
      var endpointUpdated := false;
      ghost var was := items;
      ghost var todo, done := items, [];
      var i := |items| - 1;
      while i >= 0
        invariant |todo| == i + 1 && was == todo + done
        invariant items == Passed(todo, done, e)
        invariant endpointUpdated <==> Matches(done, e.name) > 0
      {
        ghost var x, todo' := todo[i], todo[..i];
        assert todo == todo' + [x];
        PassStep(todo', x, done, e);
        Associative(todo', [x], done);
        var endpoint := items[i];
        if endpoint.name == e.name {
          items := items[..i] + items[i + 1..];
          items := items + [e];
          endpointUpdated := true;
        }
        todo, done := todo', [x] + done;
        i := i - 1;
      }
      PassEnds(todo, done, e);
      if !endpointUpdated {
        items := items + [e];
      }
      var dup := UniquePaths(items);
      ok := dup.None?;
    }
  }

  /** A path together with the resource that declares it. */
  datatype Declared = Declared(path: string, owner: string)

  function DeclaredBy(eps: seq<Endpoint>, owner: string): (r: seq<Declared>)
    ensures |r| == |eps| && forall i :: 0 <= i < |eps| ==> r[i] == Declared(eps[i].path, owner)
  {
    seq(|eps|, i requires 0 <= i < |eps| => Declared(eps[i].path, owner))
  }

  /** Every path of every live item with its owner, in list order. */
  function Declarations(items: seq<ApiEndpoints>): seq<Declared> {
    if items == [] then []
    else
      var e := items[|items| - 1];
      Declarations(items[..|items| - 1])
      + (if e.deleting then [] else
         DeclaredBy(e.spec.endpoints, e.name) + DeclaredBy(e.spec.openEndpoints, e.name))
  }

  ghost predicate DistinctPaths(ds: seq<Declared>) {
    forall i, j :: 0 <= i < j < |ds| ==> ds[i].path != ds[j].path
  }

  /** `second` declares a path that `first` declared before it, and no earlier declaration clashes. */
  datatype Duplicate = Duplicate(path: string, second: string, first: string)

  ghost predicate FirstClash(ds: seq<Declared>, d: Duplicate) {
    exists i, j :: (
      && 0 <= i < j < |ds|
      && ds[i] == Declared(d.path, d.first) && ds[j] == Declared(d.path, d.second)
      && DistinctPaths(ds[..j]))
  }

  /** `paths` records exactly the declarations scanned so far. */
  ghost predicate Records(paths: map<string, string>, ds: seq<Declared>) {
    && DistinctPaths(ds)
    && (forall i :: 0 <= i < |ds| ==> ds[i].path in paths && paths[ds[i].path] == ds[i].owner)
    && (forall p :: p in paths ==> Declared(p, paths[p]) in ds)
  }

  lemma {:induction false} DeclarationPaths(items: seq<ApiEndpoints>)
    ensures |Declarations(items)| == |LivePaths(items)|
    ensures forall i :: 0 <= i < |LivePaths(items)| ==> Declarations(items)[i].path == LivePaths(items)[i]
  {
    if items != [] {
      DeclarationPaths(items[..|items| - 1]);
    }
  }

  /** A new path extends the record; a recorded path is the first clash. */
  lemma RecordsNext(paths: map<string, string>, ds: seq<Declared>, d: Declared)
    requires Records(paths, ds)
    ensures d.path !in paths ==> Records(paths[d.path := d.owner], ds + [d])
    ensures d.path in paths ==> FirstClash(ds + [d], Duplicate(d.path, d.owner, paths[d.path]))
  {
    var all := ds + [d];
    if d.path in paths {
      assert Declared(d.path, paths[d.path]) in ds;
      var i :| 0 <= i < |ds| && ds[i] == Declared(d.path, paths[d.path]);
      assert all[i] == ds[i] && all[|ds|] == d && all[..|ds|] == ds;
    } else {
      forall p | p in paths ensures Declared(p, paths[p]) in all {
        assert Declared(p, paths[p]) in ds;
      }
      assert all[|ds|] == d;
    }
  }

  /** One inner loop of the scan: extends `paths` by `eps`, or stops at the first clash. */
  method ScanPaths(paths: map<string, string>, eps: seq<Endpoint>, owner: string, ghost ds: seq<Declared>)
    returns (paths': map<string, string>, r: Option<Duplicate>)
    requires Records(paths, ds)
    ensures r.None? ==> Records(paths', ds + DeclaredBy(eps, owner))
    ensures r.Some? ==> FirstClash(ds + DeclaredBy(eps, owner), r.value)
  {
    paths' := paths;
    assert ds + DeclaredBy(eps[..0], owner) == ds;
    for i := 0 to |eps|
      invariant Records(paths', ds + DeclaredBy(eps[..i], owner))
    {
      var p := eps[i].path;
      ghost var done := ds + DeclaredBy(eps[..i], owner);
      DeclaredNext(ds, eps, i, owner);
      RecordsNext(paths', done, Declared(p, owner));
      if p in paths' {
        r := Some(Duplicate(p, owner, paths'[p]));
        ClashInPrefix(done + [Declared(p, owner)], ds + DeclaredBy(eps, owner), r.value);
        return;
      }
      paths' := paths'[p := owner];
    }
    assert eps[..|eps|] == eps;
    r := None;
  }

  lemma {:induction false} DeclaredNext(ds: seq<Declared>, eps: seq<Endpoint>, i: nat, owner: string)
    requires i < |eps|
    ensures var next := ds + DeclaredBy(eps[..i], owner) + [Declared(eps[i].path, owner)];
            ds + DeclaredBy(eps[..i + 1], owner) == next && next <= ds + DeclaredBy(eps, owner)
  {
    assert DeclaredBy(eps[..i + 1], owner) == DeclaredBy(eps[..i], owner) + [Declared(eps[i].path, owner)];
  }

  lemma ClashInPrefix(ds: seq<Declared>, all: seq<Declared>, d: Duplicate)
    requires FirstClash(ds, d) && ds <= all
    ensures FirstClash(all, d)
  {
    var i, j :| && 0 <= i < j < |ds|
      && ds[i] == Declared(d.path, d.first) && ds[j] == Declared(d.path, d.second)
      && DistinctPaths(ds[..j]);
    assert all[i] == ds[i] && all[j] == ds[j] && all[..j] == ds[..j];
  }

  lemma {:induction false} DeclarationsPrefix(items: seq<ApiEndpoints>, i: nat)
    requires i <= |items|
    ensures Declarations(items[..i]) <= Declarations(items)
  {
    if i == |items| {
      assert items[..i] == items;
    } else {
      var front := items[..|items| - 1];
      DeclarationsPrefix(front, i);
      assert front[..i] == items[..i];
    }
  }

  /** Accepts exactly the lists whose live paths are pairwise distinct; otherwise names the first clash. */
  method UniquePaths(items: seq<ApiEndpoints>) returns (r: Option<Duplicate>)
    ensures r.None? <==> NoDup(LivePaths(items))
    ensures r.Some? ==> FirstClash(Declarations(items), r.value)
  {
    var paths: map<string, string> := map[];
    for i := 0 to |items|
      invariant Records(paths, Declarations(items[..i]))
    {
      var e := items[i];
      assert items[..i + 1][..i] == items[..i] && items[..i + 1][i] == e;
      ghost var ds := Declarations(items[..i]);
      if !e.deleting {
        ghost var whole := ds + DeclaredBy(e.spec.endpoints, e.name) + DeclaredBy(e.spec.openEndpoints, e.name);
        assert Declarations(items[..i + 1]) == whole;
        paths, r := ScanPaths(paths, e.spec.endpoints, e.name, ds);
        if r.Some? {
          ClashInPrefix(ds + DeclaredBy(e.spec.endpoints, e.name), whole, r.value);
          RejectedPrefix(items, i + 1, r.value);
          return;
        }
        paths, r := ScanPaths(paths, e.spec.openEndpoints, e.name, ds + DeclaredBy(e.spec.endpoints, e.name));
        if r.Some? {
          RejectedPrefix(items, i + 1, r.value);
          return;
        }
      }
    }
    assert items[..|items|] == items;
    DeclarationPaths(items);
    r := None;
  }

  lemma {:induction false} RejectedPrefix(items: seq<ApiEndpoints>, i: nat, d: Duplicate)
    requires i <= |items| && FirstClash(Declarations(items[..i]), d)
    ensures FirstClash(Declarations(items), d)
    ensures !NoDup(LivePaths(items))
  {
    DeclarationsPrefix(items, i);
    ClashInPrefix(Declarations(items[..i]), Declarations(items), d);
    DeclarationPaths(items);
    var ds := Declarations(items);
    var a, b :| && 0 <= a < b < |ds|
      && ds[a] == Declared(d.path, d.first) && ds[b] == Declared(d.path, d.second)
      && DistinctPaths(ds[..b]);
    assert LivePaths(items)[a] == LivePaths(items)[b];
  }

  /** The handler: the request object and a listing of the namespace decide the verdict. */
  method Handle(ns: string, krakends: map<string, Krakend>, listed: seq<ApiEndpoints>, a: ApiEndpoints,
                ghost api: map<string, ApiEndpoints>) returns (allowed: bool)
    requires NamesMatch(api) && Enumerates(api, listed)
    ensures allowed <==> Admitted(ns, krakends, api, a)
    ensures a.deleting ==> allowed
    ensures !a.deleting && a.spec.krakend == "" ==>
              (allowed <==> && ns in krakends && ProviderNamed(krakends[ns], a.spec.auth.name)
                            && UniqueLive(api[a.name := a]))
    ensures !a.deleting && a.spec.krakend != "" ==>
              (allowed <==> && a.spec.krakend in krakends
                            && ProviderNamed(krakends[a.spec.krakend], a.spec.auth.name)
                            && UniqueLive(api[a.name := a]))
  {
    if a.deleting {
      return true;
    }
    var name := KrakendName(ns, a.spec);
    if name !in krakends {
      return false;
    }
    var ok := ValidateAuth(krakends[name], a.spec.auth);
    if !ok {
      return false;
    }
    var el := new EndpointsList(listed);
    allowed := el.Validate(a);
    ReplacedEnumerates(api, listed, a);
    ListUniqueness(api[a.name := a], Replaced(listed, a));
  }

  // ----- the list check means the namespace property -----

  /** Pairwise form of path uniqueness on a list. */
  ghost predicate UniqueItems(items: seq<ApiEndpoints>) {
    && (forall i :: 0 <= i < |items| && !items[i].deleting ==> NoDup(Paths(items[i].spec)))
    && (forall i, j :: 0 <= i < j < |items| && !items[i].deleting && !items[j].deleting ==>
          Disjoint(Paths(items[i].spec), Paths(items[j].spec)))
  }

  lemma {:induction false} LivePathsMembers(items: seq<ApiEndpoints>, x: string)
    ensures x in LivePaths(items) <==>
              exists i :: 0 <= i < |items| && !items[i].deleting && x in Paths(items[i].spec)
  {
    if items != [] {
      var front, last := items[..|items| - 1], items[|items| - 1];
      LivePathsMembers(front, x);
      assert forall i :: 0 <= i < |front| ==> front[i] == items[i];
      assert items[|items| - 1] == last;
      if !last.deleting && x in Paths(last.spec) {
        assert !items[|items| - 1].deleting && x in Paths(items[|items| - 1].spec);
      }
    }
  }

  lemma {:induction false} UniqueItemsIsNoDup(items: seq<ApiEndpoints>)
    ensures UniqueItems(items) <==> NoDup(LivePaths(items))
  {
    if items != [] {
      var front, last := items[..|items| - 1], items[|items| - 1];
      UniqueItemsIsNoDup(front);
      UniqueItemsLast(front, last);
      assert items == front + [last];
      if last.deleting {
        assert LivePaths(items) == LivePaths(front);
      } else {
        NoDupConcat(LivePaths(front), Paths(last.spec));
      }
    }
  }

  lemma {:induction false} UniqueItemsLast(front: seq<ApiEndpoints>, last: ApiEndpoints)
    ensures UniqueItems(front + [last]) <==>
              && UniqueItems(front)
              && (!last.deleting ==> NoDup(Paths(last.spec)) && Disjoint(LivePaths(front), Paths(last.spec)))
  {
    var items, n := front + [last], |front|;
    assert items[n] == last && forall i :: 0 <= i < n ==> items[i] == front[i];
    if !last.deleting {
      forall x { LivePathsMembers(front, x); }
      assert Disjoint(LivePaths(front), Paths(last.spec)) <==>
        forall i :: 0 <= i < n && !items[i].deleting ==> Disjoint(Paths(items[i].spec), Paths(last.spec));
    }
  }

  lemma {:induction false} ListUniqueness(api: map<string, ApiEndpoints>, items: seq<ApiEndpoints>)
    requires NamesMatch(api) && Enumerates(api, items)
    ensures NoDup(LivePaths(items)) <==> UniqueLive(api)
  {
    UniqueItemsIsNoDup(items);
    if UniqueItems(items) {
      forall n | LiveIn(api, n) ensures NoDup(Paths(api[n].spec)) {
        var i :| 0 <= i < |items| && items[i] == api[n];
      }
      forall n, m | LiveIn(api, n) && LiveIn(api, m) && n != m
        ensures Disjoint(Paths(api[n].spec), Paths(api[m].spec))
      {
        var i :| 0 <= i < |items| && items[i] == api[n];
        var j :| 0 <= j < |items| && items[j] == api[m];
        assert i != j;
        if j < i { assert Disjoint(Paths(items[j].spec), Paths(items[i].spec)); }
      }
    }
    if UniqueLive(api) {
      forall i | 0 <= i < |items| && !items[i].deleting ensures NoDup(Paths(items[i].spec)) {
        assert LiveIn(api, items[i].name);
      }
      forall i, j | 0 <= i < j < |items| && !items[i].deleting && !items[j].deleting
        ensures Disjoint(Paths(items[i].spec), Paths(items[j].spec))
      {
        assert LiveIn(api, items[i].name) && LiveIn(api, items[j].name);
      }
    }
  }

  /** With unique names the backward loop is a plain replacement: it lists the updated namespace. */
  lemma {:induction false} ReplacedEnumerates(api: map<string, ApiEndpoints>, items: seq<ApiEndpoints>, e: ApiEndpoints)
    requires NamesMatch(api) && Enumerates(api, items)
    ensures Matches(items, e.name) <= 1
    ensures Replaced(items, e) == Others(items, e.name) + [e]
    ensures NamesMatch(api[e.name := e]) && Enumerates(api[e.name := e], Replaced(items, e))
  {
    DistinctNamesMatchOnce(items, e.name);
    assert Copies(e, 1) == [e];
    OthersEnumerate(api, items, e.name);
    EnumeratesAppend(api - {e.name}, Others(items, e.name), e);
    assert (api - {e.name})[e.name := e] == api[e.name := e];
  }

  lemma {:induction false} OthersEnumerate(api: map<string, ApiEndpoints>, items: seq<ApiEndpoints>, name: string)
    requires NamesMatch(api) && Enumerates(api, items)
    ensures Enumerates(api - {name}, Others(items, name))
  {
    var others := Others(items, name);
    OthersAndMatches(items, name);
    OthersKeepDistinct(items, name);
    forall i | 0 <= i < |others| ensures others[i].name in api - {name} && api[others[i].name] == others[i] {
      assert others[i] in others;
    }
  }

  lemma {:induction false} EnumeratesAppend(api: map<string, ApiEndpoints>, items: seq<ApiEndpoints>, e: ApiEndpoints)
    requires Enumerates(api, items) && e.name !in api
    ensures Enumerates(api[e.name := e], items + [e])
  {
    var r := items + [e];
    assert r[|items|] == e;
    forall n | n in api ensures api[n] in r {
      assert api[n] in items;
    }
  }

  lemma {:induction false} DistinctNamesMatchOnce(items: seq<ApiEndpoints>, name: string)
    requires DistinctNames(items)
    ensures Matches(items, name) <= 1
  {
    if items != [] {
      DistinctNamesMatchOnce(items[1..], name);
      OthersAndMatches(items[1..], name);
    }
  }

  lemma {:induction false} OthersKeepDistinct(items: seq<ApiEndpoints>, name: string)
    requires DistinctNames(items)
    ensures DistinctNames(Others(items, name))
  {
    if items != [] {
      var rest := items[1..];
      OthersKeepDistinct(rest, name);
      OthersAndMatches(rest, name);
      HeadStaysDistinct(items, Others(rest, name));
    }
  }

  lemma HeadStaysDistinct(items: seq<ApiEndpoints>, r: seq<ApiEndpoints>)
    requires items != [] && DistinctNames(items) && DistinctNames(r)
    requires forall x :: x in r ==> x in items[1..]
    ensures DistinctNames([items[0]] + r) && [] + r == r
  {
    forall j | 0 <= j < |r| ensures items[0].name != r[j].name {
      assert r[j] in r;
      var k :| 0 <= k < |items[1..]| && items[1..][k] == r[j];
      assert items[k + 1] == r[j];
    }
  }

  /** The verdict of the uniqueness check does not depend on the order of the list. */
  lemma {:induction false} UniquenessIgnoresOrder(items: seq<ApiEndpoints>, items': seq<ApiEndpoints>)
    requires multiset(items) == multiset(items')
    ensures NoDup(LivePaths(items)) <==> NoDup(LivePaths(items'))
  {
    LivePathsPermutation(items, items');
    NoDupMultiset(LivePaths(items));
    NoDupMultiset(LivePaths(items'));
  }

  lemma {:induction false} LivePathsPermutation(items: seq<ApiEndpoints>, items': seq<ApiEndpoints>)
    requires multiset(items) == multiset(items')
    ensures multiset(LivePaths(items)) == multiset(LivePaths(items'))
    decreases |items|
  {
    if items == [] {
      assert |multiset(items')| == 0;
    } else {
      var j := PermutationSplit(items, items');
      LivePathsPermutation(items[..|items| - 1], RemoveAt(items', j));
      LivePathsRemove(items', j);
    }
  }

  lemma {:induction false} LivePathsRemove(items: seq<ApiEndpoints>, j: nat)
    requires j < |items|
    ensures multiset(LivePaths(items)) ==
              multiset(LivePaths(RemoveAt(items, j)))
              + multiset(if items[j].deleting then [] else Paths(items[j].spec))
    decreases |items|
  {
    RemoveAtFront(items, j);
    if j < |items| - 1 {
      LivePathsRemove(items[..|items| - 1], j);
    }
  }
}
