/** Safety of the operator over every run from an empty namespace. */
module ProtocolTheorems {
  import opened ApiTypes
  import opened Sequences
  import opened GatewayCompiler
  import opened Admission
  import opened Protocol
  import opened ProtocolInvariant

  ghost predicate Growing(tr: seq<State>) {
    forall i :: 0 <= i < |tr| - 1 ==> tr[i].hist <= tr[i + 1].hist && tr[i].log <= tr[i + 1].log
  }

  lemma {:induction false} GrowingChain(tr: seq<State>, i: nat, j: nat)
    requires Growing(tr) && i <= j < |tr|
    ensures tr[i].hist <= tr[j].hist && tr[i].log <= tr[j].log
  {
    if i < j {
      GrowingChain(tr, i, j - 1);
      assert tr[j - 1].hist <= tr[j - 1 + 1].hist;
      PrefixTransitive(tr[i].hist, tr[j - 1].hist, tr[j].hist);
      PrefixTransitive(tr[i].log, tr[j - 1].log, tr[j].log);
    }
  }

  /** Nothing is ever forgotten: a later state extends the history and the log of an earlier one. */
  lemma HistoryGrows(c: Config, tr: seq<State>, evs: seq<Event>, i: nat, j: nat)
    requires Steps(c, tr, evs) && i <= j < |tr|
    ensures tr[i].hist <= tr[j].hist && tr[i].log <= tr[j].log
  {
    assert Growing(tr) by {
      forall m | 0 <= m < |tr| - 1 ensures tr[m].hist <= tr[m + 1].hist && tr[m].log <= tr[m + 1].log {
        NextGrows(c, tr, evs, m);
      }
    }
    GrowingChain(tr, i, j);
  }

  lemma NextGrows(c: Config, tr: seq<State>, evs: seq<Event>, i: nat)
    requires Steps(c, tr, evs) && i < |evs|
    ensures tr[i].hist <= tr[i + 1].hist && tr[i].log <= tr[i + 1].log
  {
    assert StepAt(c, tr, evs, i);
    StepGrows(c, tr[i], evs[i]);
  }

  lemma PrefixTransitive<T>(a: seq<T>, b: seq<T>, d: seq<T>)
    requires a <= b <= d
    ensures a <= d
  {
  }

  lemma StepGrows(c: Config, s: State, ev: Event)
    requires Enabled(c, s, ev)
    ensures s.hist <= Apply(c, s, ev).hist && s.log <= Apply(c, s, ev).log
  {
  }

  // ----- admission -----

  /** In every state of every run the live resources have pairwise distinct paths. */
  lemma AdmissionKeepsPathsUnique(c: Config, tr: seq<State>, evs: seq<Event>, i: nat)
    requires Run(c, tr, evs) && i < |tr|
    ensures tr[i].hist != [] && UniqueLive(Cur(tr[i]).api)
  {
    RunKeepsInv(c, tr, evs, i);
    assert StoreOk(tr[i].hist, |tr[i].hist| - 1);
  }

  // ----- ConfigMap content -----

  /** The paths served by `out` are exactly those of the live resources of `api`, each once. */
  ghost predicate ExactlyLivePaths(api: map<string, ApiEndpoints>, out: seq<GatewayEndpoint>) {
    && NoDup(EndpointPaths(out))
    && forall p :: p in EndpointPaths(out) <==> exists n :: LiveIn(api, n) && p in Paths(api[n].spec)
  }

  lemma WriteServesLivePaths(hist: seq<Store>, w: Write)
    requires HistOk(hist) && WriteOk(hist, w)
    ensures ExactlyLivePaths(hist[w.listRev].api, w.endpoints)
  {
    var api := hist[w.listRev].api;
    assert StoreOk(hist, w.listRev);
    LiveListing(api, w.items);
    CompiledPaths(w.k, w.items);
    forall p ensures p in LivePaths(w.items) <==> exists n :: LiveIn(api, n) && p in Paths(api[n].spec) {
      ListedPath(api, w.items, p);
    }
  }

  lemma {:induction false} LiveListing(api: map<string, ApiEndpoints>, items: seq<ApiEndpoints>)
    requires NamesMatch(api) && UniqueLive(api) && Enumerates(LiveOf(api), items)
    ensures forall i :: 0 <= i < |items| ==> !items[i].deleting
    ensures NoDup(LivePaths(items))
  {
    var live := LiveOf(api);
    forall i | 0 <= i < |items| ensures !items[i].deleting {
      assert live[items[i].name] == items[i];
    }
    assert forall n :: LiveIn(live, n) <==> LiveIn(api, n);
    assert UniqueLive(live);
    ListUniqueness(live, items);
  }

  lemma {:induction false} ListedPath(api: map<string, ApiEndpoints>, items: seq<ApiEndpoints>, p: string)
    requires Enumerates(LiveOf(api), items)
    ensures p in LivePaths(items) <==> exists n :: LiveIn(api, n) && p in Paths(api[n].spec)
  {
    LivePathsMembers(items, p);
    if p in LivePaths(items) {
      var i :| 0 <= i < |items| && !items[i].deleting && p in Paths(items[i].spec);
      assert LiveIn(api, items[i].name);
    }
    assert forall n :: LiveIn(api, n) ==> LiveOf(api)[n] in items;
  }

  /** Every content ever written serves exactly the paths live at its listing, without duplicates. */
  lemma EveryWriteIsExact(c: Config, tr: seq<State>, evs: seq<Event>, i: nat, j: nat)
    requires Run(c, tr, evs) && i < |tr| && j < |tr[i].log|
    ensures tr[i].log[j].listRev < |tr[i].hist|
    ensures ExactlyLivePaths(tr[i].hist[tr[i].log[j].listRev].api, tr[i].log[j].endpoints)
  {
    RunKeepsInv(c, tr, evs, i);
    WriteServesLivePaths(tr[i].hist, tr[i].log[j]);
  }

  /** Whatever marshalled content a partials ConfigMap holds was exact at some past revision. */
  lemma EveryContentIsExact(c: Config, tr: seq<State>, evs: seq<Event>, i: nat, n: string)
    requires Run(c, tr, evs) && i < |tr| && tr[i].hist != []
    requires n in Cur(tr[i]).cms && IsPartials(n)
    requires Cur(tr[i]).cms[n].data.Some? && Cur(tr[i]).cms[n].data.value.Partials?
    ensures exists r :: 0 <= r < |tr[i].hist|
                        && ExactlyLivePaths(tr[i].hist[r].api, Cur(tr[i]).cms[n].data.value.endpoints)
  {
    RunKeepsInv(c, tr, evs, i);
    var s, cm := tr[i], Cur(tr[i]).cms[n];
    assert CmOk(s.log, n, cm);
    var j :| 0 <= j < |s.log| && s.log[j].cm == n && s.log[j].effective
             && s.log[j].commitRev == cm.version && s.log[j].endpoints == cm.data.value.endpoints;
    WriteServesLivePaths(s.hist, s.log[j]);
  }

  /** Some write to `cm` at a position from `i` up to, not including, `j` got a version of its own. */
  ghost predicate OwnVersionBetween(c: Config, log: seq<Write>, cm: string, i: nat, j: nat) {
    (c.everyWriteCounts && i < j) || exists k :: i <= k < j && k < |log| && log[k].cm == cm && log[k].effective
  }

  /** Across a write with a version of its own, a later write lists the namespace after the earlier was committed. */
  lemma MonotoneSnapshots(c: Config, tr: seq<State>, evs: seq<Event>, t: nat, i: nat, j: nat)
    requires Run(c, tr, evs) && t < |tr| && i < j < |tr[t].log|
    requires tr[t].log[i].cm == tr[t].log[j].cm
    requires OwnVersionBetween(c, tr[t].log, tr[t].log[j].cm, i, j)
    ensures tr[t].log[i].listRev <= tr[t].log[i].commitRev <= tr[t].log[j].listRev < |tr[t].hist|
    ensures Enumerates(LiveOf(tr[t].hist[tr[t].log[j].listRev].api), tr[t].log[j].items)
  {
    RunKeepsInv(c, tr, evs, t);
    if c.everyWriteCounts {
      AllEffective(c, tr, evs, t);
    }
    OrderedAcross(c, tr[t].hist, tr[t].log, i, j);
  }

  lemma OrderedAcross(c: Config, hist: seq<Store>, log: seq<Write>, i: nat, j: nat)
    requires LogOk(hist, log) && i < j < |log| && log[i].cm == log[j].cm
    requires OwnVersionBetween(c, log, log[j].cm, i, j)
    requires c.everyWriteCounts ==> log[i].effective
    ensures log[i].listRev <= log[i].commitRev <= log[j].listRev < |hist|
    ensures Enumerates(LiveOf(hist[log[j].listRev].api), log[j].items)
  {
    assert WriteOk(hist, log[i]) && WriteOk(hist, log[j]);
    if !c.everyWriteCounts {
      var k :| i <= k < j && log[k].cm == log[j].cm && log[k].effective;
      assert log[i].commitRev <= log[k].commitRev;
    }
  }

  lemma {:induction false} AllEffective(c: Config, tr: seq<State>, evs: seq<Event>, t: nat)
    requires Run(c, tr, evs) && t < |tr| && c.everyWriteCounts
    ensures forall i :: 0 <= i < |tr[t].log| ==> tr[t].log[i].effective
  {
    if t > 0 {
      AllEffective(c, tr, evs, t - 1);
      assert StepAt(c, tr, evs, t - 1);
    }
  }

  // ----- finalizers and deletion -----

  /** A live resource with a recorded hash holds the finalizer. */
  lemma SynchronizedIsGuarded(c: Config, tr: seq<State>, evs: seq<Event>, i: nat, n: string)
    requires Run(c, tr, evs) && i < |tr| && tr[i].hist != [] && LiveIn(Cur(tr[i]).api, n)
    requires Cur(tr[i]).api[n].status.hash != ""
    ensures KRAKEND_FINALIZER in Cur(tr[i]).api[n].finalizers
  {
    RunKeepsInv(c, tr, evs, i);
    assert StoreOk(tr[i].hist, |tr[i].hist| - 1);
  }

  /** No item of the write comes from identity `u`. */
  ghost predicate Omits(w: Write, u: nat) {
    forall x :: x in w.items ==> x.uid != u
  }

  ghost predicate LosesFinalizer(st: Store, st': Store, n: string) {
    && n in st.api && KRAKEND_FINALIZER in st.api[n].finalizers
    && !(n in st'.api && KRAKEND_FINALIZER in st'.api[n].finalizers)
  }

  /** Deletion of `e` was seen at `r`, and since then its Krakend was absent or its ConfigMap was written without it. */
  ghost predicate SafelyCleared(c: Config, s: State, e: ApiEndpoints) {
    exists r, why ::
      && 0 <= r < |s.hist| && e.name in s.hist[r].api && s.hist[r].api[e.name] == e && e.deleting
      && ClearanceOk(c, s.hist, s.log, e, r, why)
      && (why.Written? ==> Omits(s.log[why.index], e.uid))
  }

  /**
    A resource that holds the finalizer loses it, and so can leave the store, only in a worker's own
    removal step, when it is marked for deletion and safely cleared.
   */
  lemma FinalizerGuardsDeletion(c: Config, tr: seq<State>, evs: seq<Event>, i: nat, n: string)
    requires Run(c, tr, evs) && i < |evs| && tr[i].hist != [] && tr[i + 1].hist != []
    requires LosesFinalizer(Cur(tr[i]), Cur(tr[i + 1]), n)
    ensures evs[i].RemoveFinalizer?
    ensures Cur(tr[i]).api[n].deleting && SafelyCleared(c, tr[i], Cur(tr[i]).api[n])
  {
    var s, ev := tr[i], evs[i];
    RunKeepsInv(c, tr, evs, i);
    assert StepAt(c, tr, evs, i);
    assert StoreOk(s.hist, |s.hist| - 1);
    OnlyWorkersRemove(c, s, ev, n);
    var pc := At(s, ev.w);
    assert WorkerOk(c, s, pc);
    SnapshotCurrent(c, s, pc.e);
    if pc.why.Written? {
      var w := s.log[pc.why.index];
      assert WriteOk(s.hist, w);
      DeletingIsDead(s.hist, pc.readRev, pc.e);
      DeadIsOmitted(s.hist, w, pc.e.uid, pc.readRev);
    }
  }

  lemma OnlyWorkersRemove(c: Config, s: State, ev: Event, n: string)
    requires ConfigOk(c) && Inv(c, s) && Enabled(c, s, ev)
    requires LosesFinalizer(Cur(s), Cur(Apply(c, s, ev)), n)
    ensures ev.RemoveFinalizer? && At(s, ev.w).e.name == n
    ensures n in Cur(s).api && Cur(s).api[n].version == At(s, ev.w).e.version
  {
    if ev.UserCreate? || ev.UserUpdate? || ev.UserDelete? {
      UsersKeepFinalizer(c, s, ev, n);
    } else if ev.UpdateEndpoints? || ev.UpdateStatus? {
      WorkersKeepFinalizer(c, s, ev, n);
    } else if ev.RemoveFinalizer? {
      RemovalIsOwn(c, s, ev.w, n);
    } else {
      OthersKeepApi(c, s, ev);
    }
  }

  lemma RemovalIsOwn(c: Config, s: State, w: nat, n: string)
    requires Inv(c, s) && At(s, w).Cleared? && LosesFinalizer(Cur(s), Cur(DoRemoveFinalizer(s, w)), n)
    ensures At(s, w).e.name == n && Cur(s).api[n].version == At(s, w).e.version
  {
  }

  lemma OthersKeepApi(c: Config, s: State, ev: Event)
    requires Inv(c, s) && Enabled(c, s, ev)
    requires !(ev.UserCreate? || ev.UserUpdate? || ev.UserDelete? || ev.RemoveFinalizer?
               || ev.UpdateEndpoints? || ev.UpdateStatus?)
    ensures Cur(Apply(c, s, ev)).api == Cur(s).api
  {
  }

  lemma PutKeepsFinalizer(st: Store, e: ApiEndpoints, rev: nat, n: string)
    requires n == e.name && n in st.api && KRAKEND_FINALIZER in st.api[n].finalizers ==>
               KRAKEND_FINALIZER in e.finalizers
    ensures !LosesFinalizer(st, PutApi(st, e, rev), n)
  {
  }

  lemma UsersKeepFinalizer(c: Config, s: State, ev: Event, n: string)
    requires Inv(c, s) && Enabled(c, s, ev) && (ev.UserCreate? || ev.UserUpdate? || ev.UserDelete?)
    ensures !LosesFinalizer(Cur(s), Cur(Apply(c, s, ev)), n)
  {
    assert StoreOk(s.hist, |s.hist| - 1);
    var st, rev := Cur(s), |s.hist|;
    match ev
    case UserCreate(m, spec, fs, owners) =>
      PutKeepsFinalizer(st, NewEndpoints(s, m, spec, fs, owners), rev, n);
    case UserUpdate(m, spec, fs, owners) =>
      PutKeepsFinalizer(st, st.api[m].(spec := spec, finalizers := fs, owners := owners), rev, n);
    case UserDelete(m) =>
      PutKeepsFinalizer(st, st.api[m].(deleting := true), rev, n);
  }

  lemma WorkersKeepFinalizer(c: Config, s: State, ev: Event, n: string)
    requires Inv(c, s) && Enabled(c, s, ev) && (ev.UpdateEndpoints? || ev.UpdateStatus?)
    ensures !LosesFinalizer(Cur(s), Cur(Apply(c, s, ev)), n)
  {
    var pc := At(s, ev.w);
    assert WorkerOk(c, s, pc);
    if pc.name in Cur(s).api && Cur(s).api[pc.name].version == pc.base.version {
      SnapshotCurrent(c, s, pc.base);
    }
  }

  lemma DeletingIsDead(hist: seq<Store>, r: nat, e: ApiEndpoints)
    requires HistOk(hist) && r < |hist| && e.name in hist[r].api && hist[r].api[e.name] == e && e.deleting
    ensures Dead(hist[r], e.uid) && e.uid <= r
  {
    assert StoreOk(hist, r);
  }

  lemma DeadIsOmitted(hist: seq<Store>, w: Write, u: nat, r: nat)
    requires HistOk(hist) && WriteOk(hist, w)
    requires u <= r <= w.listRev && Dead(hist[r], u)
    ensures Omits(w, u)
  {
    var api, live := hist[w.listRev].api, LiveOf(hist[w.listRev].api);
    assert Dead(hist[w.listRev], u);
    forall x | x in w.items ensures x.uid != u {
      var i :| 0 <= i < |w.items| && w.items[i] == x;
      assert live[x.name] == x;
      assert x.name in api && api[x.name] == x && !x.deleting;
    }
  }

  /**
    Once a ConfigMap was written from a listing in which identity `u` was no longer live, no write to it
    that comes after one with a version of its own, be it the same, brings the endpoints of `u` back.
   */
  lemma NothingComesBack(c: Config, tr: seq<State>, evs: seq<Event>, t: nat, i: nat, j: nat, u: nat)
    requires Run(c, tr, evs) && t < |tr| && i <= j < |tr[t].log|
    requires tr[t].log[i].cm == tr[t].log[j].cm
    requires i < j ==> OwnVersionBetween(c, tr[t].log, tr[t].log[j].cm, i, j)
    requires tr[t].log[i].listRev < |tr[t].hist|
    requires u <= tr[t].log[i].listRev && Dead(tr[t].hist[tr[t].log[i].listRev], u)
    ensures Omits(tr[t].log[j], u)
  {
    RunKeepsInv(c, tr, evs, t);
    if i < j { MonotoneSnapshots(c, tr, evs, t, i, j); }
    DeadIsOmitted(tr[t].hist, tr[t].log[j], u, tr[t].log[i].listRev);
  }

  /**
    The log of a deletion: when a guarded resource loses its finalizer at step i, the Krakend it
    names was absent, or the ConfigMap of that Krakend was written without it, and if that write got a
    resource version of its own, every later write to that ConfigMap, in every later state, leaves it out.
   */
  lemma ReleasedStaysOut(c: Config, tr: seq<State>, evs: seq<Event>, i: nat, n: string, t: nat)
    requires Run(c, tr, evs) && i < |evs| && i < t < |tr|
    requires tr[i].hist != [] && tr[i + 1].hist != []
    requires LosesFinalizer(Cur(tr[i]), Cur(tr[i + 1]), n)
    ensures var e := Cur(tr[i]).api[n];
            || (exists r, at :: 0 <= r <= at < |tr[i].hist| && e.name in tr[i].hist[r].api
                  && tr[i].hist[r].api[e.name] == e && KrakendName(c.ns, e.spec) !in tr[i].hist[at].krakends)
            || (exists k :: 0 <= k < |tr[i].log| && tr[i].log[k].cm == CmName(KrakendName(c.ns, e.spec))
                  && Omits(tr[i].log[k], e.uid)
                  && (c.everyWriteCounts || tr[i].log[k].effective ==> OmittedFrom(tr[t], k, tr[i].log[k].cm, e.uid)))
  {
    FinalizerGuardsDeletion(c, tr, evs, i, n);
    var s, e := tr[i], Cur(tr[i]).api[n];
    var r, why :| && 0 <= r < |s.hist| && e.name in s.hist[r].api && s.hist[r].api[e.name] == e && e.deleting
      && ClearanceOk(c, s.hist, s.log, e, r, why)
      && (why.Written? ==> Omits(s.log[why.index], e.uid));
    if why.Written? && (c.everyWriteCounts || s.log[why.index].effective) {
      ClearedForGood(c, tr, evs, i, t, e, r, why.index);
    }
  }

  /** From entry `k` on, no write to `cm` contains an item of identity `u`. */
  ghost predicate OmittedFrom(s: State, k: nat, cm: string, u: nat) {
    forall j :: k <= j < |s.log| && s.log[j].cm == cm ==> Omits(s.log[j], u)
  }

  lemma ClearedForGood(c: Config, tr: seq<State>, evs: seq<Event>, i: nat, t: nat, e: ApiEndpoints, r: nat, k: nat)
    requires Run(c, tr, evs) && i <= t < |tr|
    requires r < |tr[i].hist| && e.name in tr[i].hist[r].api && tr[i].hist[r].api[e.name] == e && e.deleting
    requires k < |tr[i].log| && r <= tr[i].log[k].listRev && (c.everyWriteCounts || tr[i].log[k].effective)
    ensures OmittedFrom(tr[t], k, tr[i].log[k].cm, e.uid)
  {
    HistoryGrows(c, tr, evs, i, t);
    RunKeepsInv(c, tr, evs, t);
    var hist, w := tr[t].hist, tr[t].log[k];
    assert w == tr[i].log[k] && WriteOk(hist, w) && hist[r] == tr[i].hist[r];
    DeletingIsDead(hist, r, e);
    assert Dead(hist[w.listRev], e.uid);
    forall j | k <= j < |tr[t].log| && tr[t].log[j].cm == w.cm ensures Omits(tr[t].log[j], e.uid) {
      NothingComesBack(c, tr, evs, t, k, j, e.uid);
    }
  }

  // ----- two controllers, one ConfigMap -----

  /** An existing partials ConfigMap is changed only by an ApiEndpoints worker's own update of it. */
  lemma OnlyReconcilerChangesPartials(c: Config, tr: seq<State>, evs: seq<Event>, i: nat, n: string)
    requires Run(c, tr, evs) && i < |evs| && tr[i].hist != [] && tr[i + 1].hist != []
    requires IsPartials(n) && n in Cur(tr[i]).cms && n in Cur(tr[i + 1]).cms
    requires Cur(tr[i]).cms[n] != Cur(tr[i + 1]).cms[n]
    ensures evs[i].UpdateConfigMap? && At(tr[i], evs[i].w).HaveList?
    ensures n == CmName(At(tr[i], evs[i].w).k.name)
    ensures Cur(tr[i + 1]).cms[n].data == Some(Partials(At(tr[i], evs[i].w).out))
  {
    var s, ev := tr[i], evs[i];
    RunKeepsInv(c, tr, evs, i);
    assert StepAt(c, tr, evs, i);
    if !ev.UpdateConfigMap? { PartialsFrame(c, s, ev, n); }
  }

  lemma PartialsFrame(c: Config, s: State, ev: Event, n: string)
    requires Inv(c, s) && Enabled(c, s, ev) && !ev.UpdateConfigMap?
    requires IsPartials(n) && n in Cur(s).cms && n in Cur(Apply(c, s, ev)).cms
    ensures Cur(Apply(c, s, ev)).cms[n] == Cur(s).cms[n]
  {
    if !(ev.PutConfigMap? || ev.DeleteConfigMap? || ev.KCreate? || ev.KUpdate?) {
      OthersKeepCms(c, s, ev);
    }
  }

  lemma OthersKeepCms(c: Config, s: State, ev: Event)
    requires Enabled(c, s, ev)
    requires !(ev.UpdateConfigMap? || ev.PutConfigMap? || ev.DeleteConfigMap? || ev.KCreate? || ev.KUpdate?)
    ensures Cur(Apply(c, s, ev)).cms == Cur(s).cms
  {
  }
}
