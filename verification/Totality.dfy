/** Admitted resources compile: when, and when not, the ConfigMap update can fail on a resource. */
module Totality {
  import opened ApiTypes
  import opened GatewayCompiler
  import opened Admission
  import opened Protocol
  import opened ProtocolInvariant

  /** The namespace has the one Krakend `kname`, which stays, and whose provider names never shrink. */
  ghost predicate KeepsProviders(kname: string, s: State, ev: Event)
    requires s.hist != []
  {
    && !ev.DeleteKrakend?
    && (ev.PutKrakend? ==>
          && ev.k.name == kname
          && (kname in Cur(s).krakends ==>
                forall p :: ProviderNamed(Cur(s).krakends[kname], p) ==> ProviderNamed(ev.k, p)))
  }

  ghost predicate OneKrakendRun(c: Config, kname: string, tr: seq<State>, evs: seq<Event>) {
    && Run(c, tr, evs)
    && forall i :: 0 <= i < |evs| ==> tr[i].hist != [] && KeepsProviders(kname, tr[i], evs[i])
  }

  /** The one Krakend is the one spec `spec` names, and it has its provider. */
  ghost predicate ProvidedBy(ns: string, kname: string, st: Store, spec: Spec) {
    kname in st.krakends && KrakendName(ns, spec) == kname && ProviderNamed(st.krakends[kname], spec.auth.name)
  }

  ghost predicate AllProvidedFor(ns: string, kname: string, st: Store) {
    && st.krakends.Keys <= {kname}
    && forall n :: LiveIn(st.api, n) ==> ProvidedBy(ns, kname, st, st.api[n].spec)
  }

  lemma PutKeepsProvided(c: Config, kname: string, st: Store, e: ApiEndpoints, rev: nat)
    requires AllProvidedFor(c.ns, kname, st) && (e.deleting || ProvidedBy(c.ns, kname, st, e.spec))
    ensures AllProvidedFor(c.ns, kname, PutApi(st, e, rev))
  {
    var api, api' := st.api, PutApi(st, e, rev).api;
    assert forall n :: LiveIn(api', n) ==> n == e.name || (LiveIn(api, n) && api'[n] == api[n]);
  }

  lemma AdmittedIsProvided(c: Config, kname: string, st: Store, e: ApiEndpoints)
    requires AllProvidedFor(c.ns, kname, st) && Admitted(c.ns, st.krakends, st.api, e)
    ensures e.deleting || ProvidedBy(c.ns, kname, st, e.spec)
  {
  }

  lemma StepKeepsProvided(c: Config, kname: string, s: State, ev: Event)
    requires ConfigOk(c) && Inv(c, s) && Enabled(c, s, ev) && KeepsProviders(kname, s, ev)
    requires AllProvidedFor(c.ns, kname, Cur(s))
    ensures AllProvidedFor(c.ns, kname, Cur(Apply(c, s, ev)))
  {
    if ev.UserCreate? || ev.UserUpdate? || ev.UserDelete? {
      UserKeepsProvided(c, kname, s, ev);
    } else if ev.RemoveFinalizer? {
      RemovalKeepsProvided(c, kname, s, ev.w);
    } else if ev.UpdateEndpoints? {
      UpdateKeepsProvided(c, kname, s, ev.w);
    } else if ev.UpdateStatus? {
      StatusKeepsProvided(c, kname, s, ev.w);
    } else {
      OtherKeepsProvided(c, kname, s, ev);
    }
  }

  lemma UserKeepsProvided(c: Config, kname: string, s: State, ev: Event)
    requires Inv(c, s) && Enabled(c, s, ev) && AllProvidedFor(c.ns, kname, Cur(s))
    requires ev.UserCreate? || ev.UserUpdate? || ev.UserDelete?
    ensures AllProvidedFor(c.ns, kname, Cur(Apply(c, s, ev)))
  {
    var st, rev := Cur(s), |s.hist|;
    match ev
    case UserCreate(n, spec, fs, owners) =>
      AdmittedIsProvided(c, kname, st, NewEndpoints(s, n, spec, fs, owners));
      PutKeepsProvided(c, kname, st, NewEndpoints(s, n, spec, fs, owners), rev);
    case UserUpdate(n, spec, fs, owners) =>
      var e := st.api[n].(spec := spec, finalizers := fs, owners := owners);
      AdmittedIsProvided(c, kname, st, e);
      PutKeepsProvided(c, kname, st, e, rev);
    case UserDelete(n) =>
      PutKeepsProvided(c, kname, st, st.api[n].(deleting := true), rev);
  }

  lemma RemovalKeepsProvided(c: Config, kname: string, s: State, w: nat)
    requires Inv(c, s) && At(s, w).Cleared? && AllProvidedFor(c.ns, kname, Cur(s))
    ensures AllProvidedFor(c.ns, kname, Cur(DoRemoveFinalizer(s, w)))
  {
    assert WorkerOk(c, s, At(s, w));
    var e := At(s, w).e;
    PutKeepsProvided(c, kname, Cur(s), e.(finalizers := e.finalizers - {KRAKEND_FINALIZER}), |s.hist|);
  }

  lemma UpdateKeepsProvided(c: Config, kname: string, s: State, w: nat)
    requires Inv(c, s) && At(s, w).Claiming? && AllProvidedFor(c.ns, kname, Cur(s))
    ensures AllProvidedFor(c.ns, kname, Cur(DoUpdateEndpoints(c, s, w)))
  {
    var e := Claim(At(s, w).base, At(s, w).k);
    if Admitted(c.ns, Cur(s).krakends, Cur(s).api, e) {
      AdmittedIsProvided(c, kname, Cur(s), e);
      PutKeepsProvided(c, kname, Cur(s), e, |s.hist|);
    }
  }

  lemma StatusKeepsProvided(c: Config, kname: string, s: State, w: nat)
    requires Inv(c, s) && At(s, w).Recording? && AllProvidedFor(c.ns, kname, Cur(s))
    ensures AllProvidedFor(c.ns, kname, Cur(DoUpdateStatus(s, w)))
  {
    var pc := At(s, w);
    assert WorkerOk(c, s, pc);
    if pc.name in Cur(s).api && Cur(s).api[pc.name].version == pc.base.version {
      SnapshotCurrent(c, s, pc.base);
      assert !pc.base.deleting ==> LiveIn(Cur(s).api, pc.name);
      PutKeepsProvided(c, kname, Cur(s), pc.base.(status := Status(s.clock, pc.hash)), |s.hist|);
    }
  }

  lemma OtherKeepsProvided(c: Config, kname: string, s: State, ev: Event)
    requires Inv(c, s) && Enabled(c, s, ev) && KeepsProviders(kname, s, ev) && AllProvidedFor(c.ns, kname, Cur(s))
    requires !(ev.UserCreate? || ev.UserUpdate? || ev.UserDelete? || ev.RemoveFinalizer?
               || ev.UpdateEndpoints? || ev.UpdateStatus?)
    ensures AllProvidedFor(c.ns, kname, Cur(Apply(c, s, ev)))
  {
  }

  lemma NextKeepsProvided(c: Config, kname: string, tr: seq<State>, evs: seq<Event>, i: nat)
    requires OneKrakendRun(c, kname, tr, evs) && i < |evs|
    requires tr[i].hist != [] && AllProvidedFor(c.ns, kname, Cur(tr[i]))
    ensures tr[i + 1].hist != [] && AllProvidedFor(c.ns, kname, Cur(tr[i + 1]))
  {
    RunKeepsInv(c, tr, evs, i);
    assert StepAt(c, tr, evs, i);
    assert KeepsProviders(kname, tr[i], evs[i]);
    StepKeepsProvided(c, kname, tr[i], evs[i]);
  }

  lemma {:induction false} RunKeepsProvided(c: Config, kname: string, tr: seq<State>, evs: seq<Event>, i: nat)
    requires OneKrakendRun(c, kname, tr, evs) && i < |tr|
    ensures tr[i].hist != [] && AllProvidedFor(c.ns, kname, Cur(tr[i]))
  {
    if i > 0 {
      RunKeepsProvided(c, kname, tr, evs, i - 1);
      NextKeepsProvided(c, kname, tr, evs, i - 1);
    }
  }

  /** With one Krakend whose providers only grow, every listing compiles for the Krakend as it is now. */
  lemma {:induction false} AdmittedAlwaysCompiles(c: Config, kname: string, tr: seq<State>, evs: seq<Event>, i: nat,
                                                  listed: seq<ApiEndpoints>)
    requires OneKrakendRun(c, kname, tr, evs) && i < |tr|
    requires tr[i].hist != [] && Enumerates(Cur(tr[i]).api, listed) && kname in Cur(tr[i]).krakends
    ensures Compile(Cur(tr[i]).krakends[kname], FilterLive(listed)).Some?
  {
    RunKeepsProvided(c, kname, tr, evs, i);
    RunKeepsInv(c, tr, evs, i);
    assert StoreOk(tr[i].hist, |tr[i].hist| - 1);
    ProvidedCompiles(Cur(tr[i]), Cur(tr[i]).krakends[kname], listed);
  }

  lemma {:induction false} ProvidedCompiles(st: Store, k: Krakend, listed: seq<ApiEndpoints>)
    requires NamesMatch(st.api) && Enumerates(st.api, listed)
    ensures Compile(k, FilterLive(listed)).Some? <==>
              forall n :: LiveIn(st.api, n) ==> ProviderNamed(k, st.api[n].spec.auth.name)
  {
    FilteredListing(st.api, listed);
    var items, live := FilterLive(listed), LiveOf(st.api);
    CompileMeaning(k, items);
    if AllProvided(k, items) {
      forall n | LiveIn(st.api, n) ensures ProviderNamed(k, st.api[n].spec.auth.name) {
        assert live[n] in items;
        var i :| 0 <= i < |items| && items[i] == live[n];
      }
    }
    if forall n :: LiveIn(st.api, n) ==> ProviderNamed(k, st.api[n].spec.auth.name) {
      forall i | 0 <= i < |items| ensures ProviderNamed(k, items[i].spec.auth.name) {
        assert live[items[i].name] == items[i];
        assert LiveIn(st.api, items[i].name);
      }
    }
  }

  /**
    A worker compiles with the Krakend it read before the listing, so its update still fails, exactly
    when a live resource uses a provider that the Krakend did not have at that earlier read.
   */
  lemma WorkerFailsIffProviderUnread(c: Config, tr: seq<State>, evs: seq<Event>, i: nat, w: nat,
                                     listed: seq<ApiEndpoints>)
    requires Run(c, tr, evs) && i < |tr| && tr[i].hist != []
    requires At(tr[i], w).HaveConfigMap? && Enumerates(Cur(tr[i]).api, listed)
    ensures AfterList(tr[i], At(tr[i], w), listed).Idle? <==>
              exists n :: LiveIn(Cur(tr[i]).api, n)
                          && !ProviderNamed(At(tr[i], w).k, Cur(tr[i]).api[n].spec.auth.name)
  {
    RunKeepsInv(c, tr, evs, i);
    assert StoreOk(tr[i].hist, |tr[i].hist| - 1);
    ProvidedCompiles(Cur(tr[i]), At(tr[i], w).k, listed);
  }

  /**
    In such a run a worker whose Krakend, as it read it, has every provider name that the Krakend has
    now never fails to compile.
   */
  lemma CurrentProvidersCompile(c: Config, kname: string, tr: seq<State>, evs: seq<Event>, i: nat, w: nat,
                                listed: seq<ApiEndpoints>)
    requires OneKrakendRun(c, kname, tr, evs) && i < |tr| && tr[i].hist != []
    requires At(tr[i], w).HaveConfigMap? && Enumerates(Cur(tr[i]).api, listed)
    requires kname in Cur(tr[i]).krakends ==>
               forall p :: ProviderNamed(Cur(tr[i]).krakends[kname], p) ==> ProviderNamed(At(tr[i], w).k, p)
    ensures AfterList(tr[i], At(tr[i], w), listed).HaveList?
  {
    RunKeepsProvided(c, kname, tr, evs, i);
    WorkerFailsIffProviderUnread(c, tr, evs, i, w, listed);
  }
}
