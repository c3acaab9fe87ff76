/** What one undisturbed reconcile does on any store, in terms of the store alone. */
module Outcomes {
  import opened ApiTypes
  import opened GatewayCompiler
  import opened Admission
  import opened Protocol
  import opened Totality
  import opened Reconciler

  /** Names are as the API server keeps them. */
  ghost predicate WellNamed(st: Store) {
    NamesMatch(st.api) && forall k :: k in st.krakends ==> st.krakends[k].name == k
  }

  /** The ConfigMap of Krakend `k` is missing or empty, or a live resource names a provider it lacks. */
  ghost predicate Unserviceable(st: Store, k: string)
    requires k in st.krakends
  {
    || k + "-krakend-partials" !in st.cms
    || st.cms[k + "-krakend-partials"].data.None?
    || exists n :: LiveIn(st.api, n) && !ProviderNamed(st.krakends[k], st.api[n].spec.auth.name)
  }

  lemma ConfigMapNames(k: string)
    ensures CmName(k) == k + "-krakend-partials"
  {
  }

  /** The ConfigMap update fails exactly on an unserviceable Krakend. */
  lemma UpdateFailsIff(c: Config, v: Versioned, k: string, listed: seq<ApiEndpoints>)
    requires WellNamed(v.st) && k in v.st.krakends && Enumerates(v.st.api, listed)
    ensures ConfigMapUpdated(c, v, v.st.krakends[k], listed).None? <==> Unserviceable(v.st, k)
  {
    ConfigMapNames(k);
    ProvidedCompiles(v.st, v.st.krakends[k], listed);
  }

  /** The text that stands in the ConfigMap is `out`, marshalled. */
  ghost predicate Shows(c: Config, cm: ConfigMap, out: seq<GatewayEndpoint>) {
    || cm.data == Some(Partials(out)) || cm.data == Some(Template(c.marshal(out)))
    || exists eps :: cm.data == Some(Partials(eps)) && c.marshal(eps) == c.marshal(out)
  }

  /** After the update the ConfigMap of `k` reads the listing, and nothing else has changed. */
  ghost predicate Rewritten(c: Config, st: Store, st': Store, k: string, listed: seq<ApiEndpoints>)
    requires k in st.krakends
  {
    var n := k + "-krakend-partials";
    && Compile(st.krakends[k], FilterLive(listed)).Some?
    && n in st'.cms && Shows(c, st'.cms[n], Compile(st.krakends[k], FilterLive(listed)).value)
    && st'.krakends == st.krakends
    && forall m :: m != n ==> (m in st'.cms <==> m in st.cms) && (m in st.cms ==> st'.cms[m] == st.cms[m])
  }

  /** The number of revisions the update of the ConfigMap takes. */
  function CmWrites(st: Store, st': Store): nat {
    if st'.cms == st.cms then 0 else 1
  }

  /** The ConfigMap gets a new version, unless its text was right already and such updates do not count. */
  ghost predicate VersionRule(c: Config, v: Versioned, u: Versioned, k: string, listed: seq<ApiEndpoints>)
    requires k in v.st.krakends && Compile(v.st.krakends[k], FilterLive(listed)).Some?
  {
    var n, out := k + "-krakend-partials", Compile(v.st.krakends[k], FilterLive(listed)).value;
    && n in v.st.cms && n in u.st.cms
    && (if !c.everyWriteCounts && Shows(c, v.st.cms[n], out) then u == v
        else u.st.cms[n] == ConfigMap(v.next, Some(Partials(out))))
  }

  lemma ReadsIsShows(c: Config, cm: ConfigMap, out: seq<GatewayEndpoint>)
    ensures Reads(c, cm.data, out) <==> Shows(c, cm, out)
  {
  }

  lemma UpdateKeepsRule(c: Config, v: Versioned, k: string, listed: seq<ApiEndpoints>)
    requires WellNamed(v.st) && k in v.st.krakends && ConfigMapUpdated(c, v, v.st.krakends[k], listed).Some?
    ensures VersionRule(c, v, ConfigMapUpdated(c, v, v.st.krakends[k], listed).value, k, listed)
  {
    ConfigMapNames(k);
    ReadsIsShows(c, v.st.cms[CmName(k)], Compile(v.st.krakends[k], FilterLive(listed)).value);
  }

  lemma {:induction false} RuleRewrites(c: Config, v: Versioned, u: Versioned, k: string, listed: seq<ApiEndpoints>)
    requires k in v.st.krakends && Compile(v.st.krakends[k], FilterLive(listed)).Some?
    requires VersionRule(c, v, u, k, listed) && u.st.krakends == v.st.krakends
    requires k + "-krakend-partials" in v.st.cms && v.st.cms[k + "-krakend-partials"].version < v.next
    requires u == v || (u.next == v.next + 1
                        && u.st.cms == v.st.cms[k + "-krakend-partials" := u.st.cms[k + "-krakend-partials"]])
    ensures Rewritten(c, v.st, u.st, k, listed) && u.next == v.next + CmWrites(v.st, u.st)
  {
  }

  lemma UpdateRewrites(c: Config, v: Versioned, k: string, listed: seq<ApiEndpoints>)
    requires WellNamed(v.st) && k in v.st.krakends && Enumerates(v.st.api, listed)
    requires !Unserviceable(v.st, k) && (forall n :: n in v.st.cms ==> v.st.cms[n].version < v.next)
    ensures var u := ConfigMapUpdated(c, v, v.st.krakends[k], listed);
            && u.Some? && Rewritten(c, v.st, u.value.st, k, listed) && u.value.st.api == v.st.api
            && u.value.next == v.next + CmWrites(v.st, u.value.st)
            && VersionRule(c, v, u.value, k, listed)
  {
    UpdateFailsIff(c, v, k, listed);
    UpdateKeepsRule(c, v, k, listed);
    ConfigMapNames(k);
    RuleRewrites(c, v, ConfigMapUpdated(c, v, v.st.krakends[k], listed).value, k, listed);
  }

  /** Versions in the store are older than the next one. */
  ghost predicate Versions(v: Versioned) {
    forall n :: n in v.st.cms ==> v.st.cms[n].version < v.next
  }

  // ----- resources that are marked for deletion -----

  /**
    A reconcile of a deleting resource fails exactly if the Krakend it names (its namespace's own when it
    names none) exists and is unserviceable, and then it changes nothing.  A success rewrites that Krakend's
    ConfigMap if the Krakend exists, takes off the operator's finalizer, and nothing else.
   */
  lemma DeletionOutcome(c: Config, v: Versioned, clock: int, n: string, listed: seq<ApiEndpoints>)
    requires WellNamed(v.st) && Versions(v) && Enumerates(v.st.api, listed) && n in v.st.api && v.st.api[n].deleting
    ensures var e, o := v.st.api[n], Reconciled(c, v, clock, n, listed);
            var k := if e.spec.krakend == "" then c.ns else e.spec.krakend;
            var st' := o.after.st;
            && (o.ok <==> !(k in v.st.krakends && Unserviceable(v.st, k)))
            && (!o.ok ==> o == Outcome(v, false, 0))
            && (o.ok && k in v.st.krakends ==> Rewritten(c, v.st, st', k, listed))
            && (o.ok && k !in v.st.krakends ==> st'.cms == v.st.cms && st'.krakends == v.st.krakends)
            && (o.ok ==> Released(v.st.api, st'.api, n))
            && o.after.next == v.next + CmWrites(v.st, st') + o.apiWrites
  {
    var k := KrakendName(c.ns, v.st.api[n].spec);
    if k !in v.st.krakends {
      DeletionReleases(c, v, v, n, listed);
    } else {
      UpdateFailsIff(c, v, k, listed);
      if !Unserviceable(v.st, k) {
        UpdateRewrites(c, v, k, listed);
        DeletionReleases(c, v, ConfigMapUpdated(c, v, v.st.krakends[k], listed).value, n, listed);
      }
    }
  }

  /** After the ConfigMap, if any, was updated to `u`, the finalizer goes. */
  lemma DeletionReleases(c: Config, v: Versioned, u: Versioned, n: string, listed: seq<ApiEndpoints>)
    requires WellNamed(v.st) && n in v.st.api && v.st.api[n].deleting && u.st.api == v.st.api
    requires var k := KrakendName(c.ns, v.st.api[n].spec);
             Some(u) == if k in v.st.krakends then ConfigMapUpdated(c, v, v.st.krakends[k], listed) else Some(v)
    ensures var o := DeletionReconciled(c, v, v.st.api[n], listed);
            && o.ok && Released(v.st.api, o.after.st.api, n)
            && o.after.st.cms == u.st.cms && o.after.st.krakends == u.st.krakends
            && o.after.next == u.next + o.apiWrites
  {
    ReleasedPut(u, n);
  }

  /** The operator's finalizer is off; the resource is gone exactly if that was the last one. */
  ghost predicate Released(api: map<string, ApiEndpoints>, api': map<string, ApiEndpoints>, n: string)
    requires n in api
  {
    var e, fin := api[n], "finalizer.krakend.nais.io";
    && (forall m :: m != n ==> (m in api' <==> m in api) && (m in api ==> api'[m] == api[m]))
    && (n !in api' <==> e.finalizers == {fin})
    && (n in api' ==> api'[n] == e.(version := api'[n].version, finalizers := e.finalizers - {fin}))
  }

  lemma ReleasedPut(u: Versioned, n: string)
    requires NamesMatch(u.st.api) && n in u.st.api && u.st.api[n].deleting
    ensures var e := u.st.api[n];
            Released(u.st.api, (if KRAKEND_FINALIZER in e.finalizers
                                then PutApiV(u, e.(finalizers := e.finalizers - {KRAKEND_FINALIZER})) else u).st.api, n)
  {
    var e := u.st.api[n];
    assert KRAKEND_FINALIZER in e.finalizers ==>
      (e.finalizers - {KRAKEND_FINALIZER} == {} <==> e.finalizers == {KRAKEND_FINALIZER});
    assert KRAKEND_FINALIZER !in e.finalizers ==> e.finalizers - {KRAKEND_FINALIZER} == e.finalizers;
  }

  // ----- live resources -----

  /** Finalizer and owner are there, hash and time are recorded, and nothing else has changed. */
  ghost predicate Recorded(c: Config, api: map<string, ApiEndpoints>, api': map<string, ApiEndpoints>,
                           n: string, k: Krakend, clock: int)
    requires n in api
  {
    var e := api[n];
    && (forall m :: m != n ==> (m in api' <==> m in api) && (m in api ==> api'[m] == api[m]))
    && n in api'
    && api'[n] == e.(version := api'[n].version, status := Status(clock, c.hash(e.spec)),
                     finalizers := e.finalizers + {"finalizer.krakend.nais.io"},
                     owners := if e.owners == [] then [OwnerRef(k.name, k.uid)] else e.owners)
  }

  /** The spec has changed since it was recorded, or the sync interval has passed. */
  predicate Due(c: Config, e: ApiEndpoints, clock: int) {
    e.status.hash != c.hash(e.spec) || clock > e.status.timestamp + c.syncInterval
  }

  lemma ClaimAdmittedIff(c: Config, st: Store, n: string)
    requires WellNamed(st) && LiveIn(st.api, n)
    requires KrakendName(c.ns, st.api[n].spec) in st.krakends
    requires !Unserviceable(st, KrakendName(c.ns, st.api[n].spec))
    ensures var k := st.krakends[KrakendName(c.ns, st.api[n].spec)];
            Admitted(c.ns, st.krakends, st.api, Claim(st.api[n], k)) <==> UniqueLive(st.api)
  {
    var e := Claim(st.api[n], st.krakends[KrakendName(c.ns, st.api[n].spec)]);
    var api' := st.api[n := e];
    assert forall m :: LiveIn(api', m) <==> LiveIn(st.api, m);
    assert forall m :: LiveIn(api', m) ==> api'[m].spec == st.api[m].spec;
    assert UniqueLive(api') <==> UniqueLive(st.api);
  }

  lemma {:induction false} ClaimAndRecordOutcome(c: Config, u: Versioned, n: string, k: Krakend, clock: int)
    requires NamesMatch(u.st.api) && LiveIn(u.st.api, n)
    requires Admitted(c.ns, u.st.krakends, u.st.api, Claim(u.st.api[n], k)) <==> UniqueLive(u.st.api)
    ensures var e, o := u.st.api[n], ClaimedAndRecorded(c, u, u.st.api[n], k, clock);
            var needed := "finalizer.krakend.nais.io" !in e.finalizers || e.owners == [];
            && (o.ok <==> (needed ==> UniqueLive(u.st.api)))
            && (if o.ok then Recorded(c, u.st.api, o.after.st.api, n, k, clock) else o == Outcome(u, false, 0))
            && o.after.st.cms == u.st.cms && o.after.st.krakends == u.st.krakends
            && o.after.next == u.next + o.apiWrites
  {
    var e := u.st.api[n];
    if KRAKEND_FINALIZER in e.finalizers { assert e.finalizers + {KRAKEND_FINALIZER} == e.finalizers; }
  }

  /**
    A reconcile of a live resource does nothing unless it is due.  If it is due it fails exactly if the
    Krakend it names is absent or unserviceable, or finalizer or owner are missing while the namespace's
    paths clash.  A success rewrites that Krakend's ConfigMap, claims the resource and records hash and time.
   */
  lemma SyncOutcome(c: Config, v: Versioned, clock: int, n: string, listed: seq<ApiEndpoints>)
    requires WellNamed(v.st) && Versions(v) && Enumerates(v.st.api, listed) && LiveIn(v.st.api, n)
    ensures var e, o := v.st.api[n], Reconciled(c, v, clock, n, listed);
            var k := if e.spec.krakend == "" then c.ns else e.spec.krakend;
            var served := k in v.st.krakends && !Unserviceable(v.st, k);
            var needed := "finalizer.krakend.nais.io" !in e.finalizers || e.owners == [];
            if !Due(c, e, clock) then o == Outcome(v, true, 0)
            else
              && (o.ok <==> served && (needed ==> UniqueLive(v.st.api)))
              && (if served then Rewritten(c, v.st, o.after.st, k, listed) else o == Outcome(v, false, 0))
              && (if o.ok then Recorded(c, v.st.api, o.after.st.api, n, v.st.krakends[k], clock)
                  else o.after.st.api == v.st.api)
              && o.after.next == v.next + CmWrites(v.st, o.after.st) + o.apiWrites
  {
    var e := v.st.api[n];
    var k := KrakendName(c.ns, e.spec);
    if Due(c, e, clock) && k in v.st.krakends {
      UpdateFailsIff(c, v, k, listed);
      if !Unserviceable(v.st, k) {
        ServedOutcome(c, v, clock, n, k, listed);
      }
    }
  }

  lemma ServedOutcome(c: Config, v: Versioned, clock: int, n: string, k: string, listed: seq<ApiEndpoints>)
    requires WellNamed(v.st) && Versions(v) && Enumerates(v.st.api, listed) && LiveIn(v.st.api, n)
    requires k == KrakendName(c.ns, v.st.api[n].spec) && k in v.st.krakends && !Unserviceable(v.st, k)
    ensures var e, o := v.st.api[n], SyncReconciled(c, v, v.st.api[n], clock, listed);
            var needed := "finalizer.krakend.nais.io" !in e.finalizers || e.owners == [];
            && (o.ok <==> (needed ==> UniqueLive(v.st.api)))
            && Rewritten(c, v.st, o.after.st, k, listed)
            && (if o.ok then Recorded(c, v.st.api, o.after.st.api, n, v.st.krakends[k], clock)
                else o.after.st.api == v.st.api)
            && o.after.next == v.next + CmWrites(v.st, o.after.st) + o.apiWrites
  {
    UpdateRewrites(c, v, k, listed);
    var u := ConfigMapUpdated(c, v, v.st.krakends[k], listed).value;
    ClaimAdmittedIff(c, v.st, n);
    ClaimAndRecordOutcome(c, u, n, v.st.krakends[k], clock);
  }

  /** A resource that does not exist is not an error. */
  lemma AbsentOutcome(c: Config, v: Versioned, clock: int, n: string, listed: seq<ApiEndpoints>)
    requires n !in v.st.api
    ensures Reconciled(c, v, clock, n, listed) == Outcome(v, true, 0)
  {
  }

  // ----- the sync window -----

  /** With the current spec recorded, the resource is synchronized again exactly after the sync interval. */
  lemma SyncWindow(c: Config, v: Versioned, clock: int, n: string, listed: seq<ApiEndpoints>)
    requires WellNamed(v.st) && Versions(v) && Enumerates(v.st.api, listed) && LiveIn(v.st.api, n)
    requires v.st.api[n].status.hash == c.hash(v.st.api[n].spec) && UniqueLive(v.st.api)
    requires var k := if v.st.api[n].spec.krakend == "" then c.ns else v.st.api[n].spec.krakend;
             k in v.st.krakends && !Unserviceable(v.st, k)
    ensures var e, o := v.st.api[n], Reconciled(c, v, clock, n, listed);
            && (clock > e.status.timestamp + c.syncInterval ==>
                  && o.ok && n in o.after.st.api && o.after.st.api[n].status == Status(clock, c.hash(e.spec))
                  && Rewritten(c, v.st, o.after.st, if e.spec.krakend == "" then c.ns else e.spec.krakend, listed))
            && (clock <= e.status.timestamp + c.syncInterval ==> o == Outcome(v, true, 0))
  {
    SyncOutcome(c, v, clock, n, listed);
  }
}
