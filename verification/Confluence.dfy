/** Whatever order the events come in, the written gateway configuration is the same. */
module Confluence {
  import opened ApiTypes
  import opened Sequences
  import opened GatewayCompiler
  import opened Admission
  import opened Protocol
  import opened ProtocolInvariant
  import opened Reconciler
  import opened Quiescence

  /** A resource reduced to what the compiler reads. */
  function Bare(e: ApiEndpoints): ApiEndpoints {
    ApiEndpoints(e.name, 0, 0, false, {}, [], e.spec, Status(0, ""))
  }

  function Bares(items: seq<ApiEndpoints>): (r: seq<ApiEndpoints>)
    ensures |r| == |items| && forall i :: 0 <= i < |items| ==> r[i] == Bare(items[i])
  {
    seq(|items|, i requires 0 <= i < |items| => Bare(items[i]))
  }

  lemma {:induction false} CompileReadsSpecs(k: Krakend, items: seq<ApiEndpoints>)
    ensures Compile(k, items) == Compile(k, Bares(items))
  {
    if items != [] {
      CompileReadsSpecs(k, items[..|items| - 1]);
      assert Bares(items)[..|items| - 1] == Bares(items[..|items| - 1]);
    }
  }

  lemma {:induction false} SameSetSameMultiset<T(!new)>(s: seq<T>, t: seq<T>)
    requires NoDup(s) && NoDup(t) && forall x :: x in s <==> x in t
    ensures multiset(s) == multiset(t)
  {
    NoDupMultiset(s);
    NoDupMultiset(t);
    forall x ensures multiset(s)[x] == multiset(t)[x] {
      assert x in multiset(s) <==> x in s;
      assert x in multiset(t) <==> x in t;
    }
  }

  lemma BaresDistinct(api: map<string, ApiEndpoints>, items: seq<ApiEndpoints>)
    requires Enumerates(api, items)
    ensures NoDup(Bares(items))
    ensures forall x :: x in Bares(items) <==> exists n :: n in api && x == Bare(api[n])
  {
    var b := Bares(items);
    forall i, j | 0 <= i < j < |b| ensures b[i] != b[j] {
      assert b[i].name == items[i].name && b[j].name == items[j].name;
    }
    forall x ensures x in b <==> exists n :: n in api && x == Bare(api[n]) {
      if x in b {
        var i :| 0 <= i < |b| && b[i] == x;
        assert items[i].name in api && x == Bare(api[items[i].name]);
      }
      if n :| n in api && x == Bare(api[n]) {
        assert api[n] in items;
        var i :| 0 <= i < |items| && items[i] == api[n];
        assert b[i] == x;
      }
    }
  }

  /** Two listings of stores with the same live specs compile to the same endpoints, up to order. */
  lemma {:induction false} SameSpecsCompileAlike(k: Krakend, st: Store, st': Store, listed: seq<ApiEndpoints>,
                                                 listed': seq<ApiEndpoints>)
    requires NamesMatch(st.api) && NamesMatch(st'.api) && SameSpecs(st, st')
    requires Enumerates(st.api, listed) && Enumerates(st'.api, listed')
    ensures var o, o' := Compile(k, FilterLive(listed)), Compile(k, FilterLive(listed'));
            && (o.Some? <==> o'.Some?)
            && (o.Some? ==> multiset(o.value) == multiset(o'.value))
  {
    FilteredListing(st.api, listed);
    FilteredListing(st'.api, listed');
    var items, items' := FilterLive(listed), FilterLive(listed');
    var live, live' := LiveOf(st.api), LiveOf(st'.api);
    BaresDistinct(live, items);
    BaresDistinct(live', items');
    forall x ensures x in Bares(items) <==> x in Bares(items') {
      if n :| n in live && x == Bare(live[n]) {
        assert LiveIn(st.api, n);
        assert n in live' && x == Bare(live'[n]);
      }
      if n :| n in live' && x == Bare(live'[n]) {
        assert LiveIn(st'.api, n);
        assert n in live && x == Bare(live[n]);
      }
    }
    SameSetSameMultiset(Bares(items), Bares(items'));
    CompileReadsSpecs(k, items);
    CompileReadsSpecs(k, items');
    CompilePermutation(k, Bares(items), Bares(items'));
  }

  /** `data` reads as what Krakend `k` has to serve for the live resources of `st`, in some order. */
  ghost predicate Canonical(c: Config, st: Store, k: string, data: Option<Data>)
    requires k in st.krakends
  {
    exists out :: Reads(c, data, out) && CompiledFrom(st, k, out)
  }

  ghost predicate CompiledFrom(st: Store, k: string, out: seq<GatewayEndpoint>)
    requires k in st.krakends
  {
    exists listed :: Enumerates(st.api, listed) && Compile(st.krakends[k], FilterLive(listed)).Some?
      && multiset(out) == multiset(Compile(st.krakends[k], FilterLive(listed)).value)
  }

  /** A turn that writes the ConfigMap of Krakend `k`. */
  ghost predicate WritesFor(c: Config, l: Loop, t: Turn, k: string) {
    t.Handle? && Works(c, l, t, t.n) && KrakendName(c.ns, l.v.st.api[t.n].spec) == k
  }

  lemma CmNameInjective(a: string, b: string)
    ensures CmName(a) == CmName(b) ==> a == b
  {
    if CmName(a) == CmName(b) {
      assert CmName(a)[..|a|] == a && CmName(b)[..|b|] == b;
    }
  }

  lemma CmsAfterDeletion(c: Config, v: Versioned, e: ApiEndpoints, listed: seq<ApiEndpoints>)
    requires KrakendName(c.ns, e.spec) in v.st.krakends
    requires ConfigMapUpdated(c, v, v.st.krakends[KrakendName(c.ns, e.spec)], listed).Some?
    ensures DeletionReconciled(c, v, e, listed).after.st.cms
            == ConfigMapUpdated(c, v, v.st.krakends[KrakendName(c.ns, e.spec)], listed).value.st.cms
  {
  }

  lemma CmsAfterClaim(c: Config, u: Versioned, e: ApiEndpoints, k: Krakend, clock: int)
    ensures ClaimedAndRecorded(c, u, e, k, clock).after.st.cms == u.st.cms
  {
  }

  /** Writing a resource leaves the ConfigMaps alone, so they end as the ConfigMap update left them. */
  lemma CmsAfter(c: Config, v: Versioned, clock: int, n: string, listed: seq<ApiEndpoints>)
    requires Healthy(c, v.st) && Enumerates(v.st.api, listed) && n in v.st.api
    requires v.st.api[n].deleting || !Skips(c, v.st.api[n], clock)
    requires KrakendName(c.ns, v.st.api[n].spec) in v.st.krakends
    ensures var u := ConfigMapUpdated(c, v, v.st.krakends[KrakendName(c.ns, v.st.api[n].spec)], listed);
            u.Some? && Reconciled(c, v, clock, n, listed).after.st.cms == u.value.st.cms
  {
    var e := v.st.api[n];
    var kname := KrakendName(c.ns, e.spec);
    ConfigMapUpdateSucceeds(c, v, kname, listed);
    if e.deleting {
      CmsAfterDeletion(c, v, e, listed);
    } else {
      CmsAfterClaim(c, ConfigMapUpdated(c, v, v.st.krakends[kname], listed).value, e, v.st.krakends[kname], clock);
    }
  }

  lemma CmsUntouched(c: Config, v: Versioned, clock: int, n: string, listed: seq<ApiEndpoints>)
    requires Healthy(c, v.st)
    requires n in v.st.api ==>
               if v.st.api[n].deleting then KrakendName(c.ns, v.st.api[n].spec) !in v.st.krakends
               else Skips(c, v.st.api[n], clock)
    ensures Reconciled(c, v, clock, n, listed).after.st.cms == v.st.cms
  {
  }

  /** What a turn leaves in the ConfigMap of `k`. */
  lemma TurnContent(c: Config, until: int, l: Loop, t: Turn, k: string)
    requires Healthy(c, l.v.st) && TurnEnabled(l, until, t) && k in l.v.st.krakends
    ensures CmName(k) in TurnResult(c, l, t).v.st.cms
    ensures WritesFor(c, l, t, k) ==>
              && Compile(l.v.st.krakends[k], FilterLive(t.listed)).Some?
              && Reads(c, TurnResult(c, l, t).v.st.cms[CmName(k)].data,
                       Compile(l.v.st.krakends[k], FilterLive(t.listed)).value)
    ensures !WritesFor(c, l, t, k) ==>
              TurnResult(c, l, t).v.st.cms[CmName(k)].data == l.v.st.cms[CmName(k)].data
  {
    if t.Handle? {
      var st, n := l.v.st, t.n;
      if n in st.api && KrakendName(c.ns, st.api[n].spec) in st.krakends
         && (st.api[n].deleting || !Skips(c, st.api[n], t.clock)) {
        var kname := KrakendName(c.ns, st.api[n].spec);
        CmsAfter(c, l.v, t.clock, n, t.listed);
        ConfigMapUpdateSucceeds(c, l.v, kname, t.listed);
        ListingCompiles(c, st, kname, t.listed);
        CmNameInjective(kname, k);
      } else {
        assert n in st.api && !st.api[n].deleting ==> LiveIn(st.api, n);
        CmsUntouched(c, l.v, t.clock, n, t.listed);
      }
    }
  }

  /** A write at a store with the initial specs is canonical for the initial store. */
  lemma {:induction false} WriteIsCanonical(st0: Store, st: Store, k: string, listed: seq<ApiEndpoints>)
    requires NamesMatch(st0.api) && NamesMatch(st.api) && SameSpecs(st0, st) && k in st0.krakends
    requires Enumerates(st.api, listed) && Compile(st.krakends[k], FilterLive(listed)).Some?
    ensures CompiledFrom(st0, k, Compile(st.krakends[k], FilterLive(listed)).value)
  {
    var listed0 := SomeListing(st0.api);
    SameSpecsCompileAlike(st.krakends[k], st0, st, listed0, listed);
  }

  /** A value that is canonical when written and otherwise kept stays canonical after the first write. */
  lemma {:induction false} CanonicalChain(c: Config, st: Store, k: string, ds: seq<Option<Data>>, ws: seq<bool>,
                                          j: nat, i: nat)
    requires k in st.krakends && |ds| == |ws| + 1 && j < i < |ds| && ws[j]
    requires forall m :: 0 <= m < |ws| ==> if ws[m] then Canonical(c, st, k, ds[m + 1]) else ds[m + 1] == ds[m]
    ensures Canonical(c, st, k, ds[i])
  {
    assert if ws[i - 1] then Canonical(c, st, k, ds[i - 1 + 1]) else ds[i - 1 + 1] == ds[i - 1];
    if !ws[i - 1] {
      CanonicalChain(c, st, k, ds, ws, j, i - 1);
    }
  }

  /** Once some turn has written the ConfigMap of `k`, its content is the canonical one for the initial store. */
  lemma WrittenIsCanonical(c: Config, until: int, ls: seq<Loop>, ts: seq<Turn>, j: nat, i: nat, k: string)
    requires LoopRun(c, until, ls, ts) && j < i < |ls| && k in ls[0].v.st.krakends
    requires WritesFor(c, ls[j], ts[j], k)
    ensures CmName(k) in ls[i].v.st.cms && Canonical(c, ls[0].v.st, k, ls[i].v.st.cms[CmName(k)].data)
  {
    forall m | 0 <= m < |ls| ensures CmName(k) in ls[m].v.st.cms {
      LoopInvariant(c, until, ls, ts, m);
    }
    var ds := seq(|ls|, m requires 0 <= m < |ls| => ls[m].v.st.cms[CmName(k)].data);
    var ws := seq(|ts|, m requires 0 <= m < |ts| => WritesFor(c, ls[m], ts[m], k));
    forall m | 0 <= m < |ws|
      ensures if ws[m] then Canonical(c, ls[0].v.st, k, ds[m + 1]) else ds[m + 1] == ds[m]
    {
      NextContent(c, until, ls, ts, m, k);
    }
    CanonicalChain(c, ls[0].v.st, k, ds, ws, j, i);
  }

  lemma NextContent(c: Config, until: int, ls: seq<Loop>, ts: seq<Turn>, i: nat, k: string)
    requires LoopRun(c, until, ls, ts) && i < |ts| && k in ls[0].v.st.krakends
    ensures CmName(k) in ls[i].v.st.cms && CmName(k) in ls[i + 1].v.st.cms
    ensures if WritesFor(c, ls[i], ts[i], k)
            then Canonical(c, ls[0].v.st, k, ls[i + 1].v.st.cms[CmName(k)].data)
            else ls[i + 1].v.st.cms[CmName(k)].data == ls[i].v.st.cms[CmName(k)].data
  {
    LoopInvariant(c, until, ls, ts, i);
    var l, t := ls[i], ts[i];
    assert TurnAt(c, until, ls, ts, i);
    TurnContent(c, until, l, t, k);
    if WritesFor(c, l, t, k) {
      WriteIsCanonical(ls[0].v.st, l.v.st, k, t.listed);
    }
  }

  /**
    Any two runs from the same store, with any event orders, listings and timings, that each wrote the
    ConfigMap of Krakend `k` at least once end with the same endpoints in it, up to order.
   */
  lemma EventOrderDoesNotMatter(c: Config, until: int, k: string,
                                ls: seq<Loop>, ts: seq<Turn>, j: nat, i: nat,
                                ls': seq<Loop>, ts': seq<Turn>, j': nat, i': nat)
    requires LoopRun(c, until, ls, ts) && LoopRun(c, until, ls', ts') && ls[0].v.st == ls'[0].v.st
    requires j < i < |ls| && j' < i' < |ls'| && k in ls[0].v.st.krakends
    requires WritesFor(c, ls[j], ts[j], k) && WritesFor(c, ls'[j'], ts'[j'], k)
    ensures CmName(k) in ls[i].v.st.cms && CmName(k) in ls'[i'].v.st.cms
    ensures var d, d' := ls[i].v.st.cms[CmName(k)].data, ls'[i'].v.st.cms[CmName(k)].data;
            exists out, out' :: Reads(c, d, out) && Reads(c, d', out') && multiset(out) == multiset(out')
  {
    WrittenIsCanonical(c, until, ls, ts, j, i, k);
    WrittenIsCanonical(c, until, ls', ts', j', i', k);
    var st := ls[0].v.st;
    var d, d' := ls[i].v.st.cms[CmName(k)].data, ls'[i'].v.st.cms[CmName(k)].data;
    var out :| Reads(c, d, out) && CompiledFrom(st, k, out);
    var out' :| Reads(c, d', out') && CompiledFrom(st, k, out');
    CompiledAlike(st, k, out, out');
  }

  lemma CompiledAlike(st: Store, k: string, out: seq<GatewayEndpoint>, out': seq<GatewayEndpoint>)
    requires NamesMatch(st.api) && k in st.krakends && CompiledFrom(st, k, out) && CompiledFrom(st, k, out')
    ensures multiset(out) == multiset(out')
  {
    var a :| Enumerates(st.api, a) && Compile(st.krakends[k], FilterLive(a)).Some?
      && multiset(out) == multiset(Compile(st.krakends[k], FilterLive(a)).value);
    var a' :| Enumerates(st.api, a') && Compile(st.krakends[k], FilterLive(a')).Some?
      && multiset(out') == multiset(Compile(st.krakends[k], FilterLive(a')).value);
    SameSpecsCompileAlike(st.krakends[k], st, st, a, a');
  }
}
