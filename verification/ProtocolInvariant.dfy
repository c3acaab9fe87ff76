/** What every step of the protocol keeps. */
module ProtocolInvariant {
  import opened ApiTypes
  import opened GatewayCompiler
  import opened Admission
  import opened Protocol

  /** No resource of identity `u` is live in `st`. */
  ghost predicate Dead(st: Store, u: nat) {
    forall n :: n in st.api && st.api[n].uid == u ==> st.api[n].deleting
  }

  /** A live resource that was ever synchronized holds the finalizer. */
  ghost predicate Guarded(e: ApiEndpoints) {
    e.status.hash != "" && !e.deleting ==> KRAKEND_FINALIZER in e.finalizers
  }

  /** `e` is what the store held under its name at the revision that is its version. */
  ghost predicate Faithful(hist: seq<Store>, e: ApiEndpoints) {
    e.version < |hist| && e.name in hist[e.version].api && hist[e.version].api[e.name] == e
  }

  ghost predicate ObjectOk(hist: seq<Store>, r: nat, n: string, e: ApiEndpoints) {
    e.name == n && e.uid <= r && e.version <= r && Faithful(hist, e) && Guarded(e)
  }

  ghost predicate ApiOk(hist: seq<Store>, r: nat)
    requires r < |hist|
  {
    var api := hist[r].api;
    && (forall n :: n in api ==> ObjectOk(hist, r, n, api[n]))
    && UidsDistinct(api)
    && UniqueLive(api)
  }

  ghost predicate StoreOk(hist: seq<Store>, r: nat)
    requires r < |hist|
  {
    && ApiOk(hist, r)
    && (forall n :: n in hist[r].krakends ==> hist[r].krakends[n].name == n)
    && (forall n :: n in hist[r].cms ==> hist[r].cms[n].version <= r)
  }

  /** History never brings an identity back to life. */
  ghost predicate DeadStays(hist: seq<Store>) {
    forall r, r', u: nat :: 0 <= r <= r' < |hist| && u <= r && Dead(hist[r], u) ==> Dead(hist[r'], u)
  }

  ghost predicate HistOk(hist: seq<Store>) {
    hist != [] && (forall r :: 0 <= r < |hist| ==> StoreOk(hist, r)) && DeadStays(hist)
  }

  function LiveOf(api: map<string, ApiEndpoints>): map<string, ApiEndpoints> {
    map n | n in api && !api[n].deleting :: api[n]
  }

  ghost predicate WriteOk(hist: seq<Store>, w: Write) {
    && w.listRev <= w.commitRev < |hist|
    && w.cm == CmName(w.k.name)
    && Enumerates(LiveOf(hist[w.listRev].api), w.items)
    && Compile(w.k, w.items) == Some(w.endpoints)
  }

  /** No later write starts from a listing that an earlier effective write could already have missed. */
  ghost predicate LogOk(hist: seq<Store>, log: seq<Write>) {
    && (forall i :: 0 <= i < |log| ==> WriteOk(hist, log[i]))
    && (forall i, j :: 0 <= i < j < |log| && log[i].cm == log[j].cm && log[i].effective ==>
          log[i].commitRev <= log[j].listRev)
    && (forall i, j :: 0 <= i < j < |log| ==> log[i].commitRev <= log[j].commitRev)
  }

  /** Every effective write to `n` happened by revision `r`. */
  ghost predicate WrittenBy(log: seq<Write>, n: string, r: nat) {
    forall i :: 0 <= i < |log| && log[i].cm == n && log[i].effective ==> log[i].commitRev <= r
  }

  /** Marshalled content of a partials ConfigMap is that of the latest effective write to it. */
  ghost predicate CmOk(log: seq<Write>, n: string, cm: ConfigMap) {
    && WrittenBy(log, n, cm.version)
    && (cm.data.Some? && cm.data.value.Partials? ==>
          exists i :: 0 <= i < |log| && log[i].cm == n && log[i].effective
                      && log[i].commitRev == cm.version && log[i].endpoints == cm.data.value.endpoints)
  }

  ghost predicate CmsOk(s: State)
    requires s.hist != []
  {
    forall n :: n in Cur(s).cms && IsPartials(n) ==> CmOk(s.log, n, Cur(s).cms[n])
  }

  ghost predicate JobOk(c: Config, hist: seq<Store>, job: Job, kname: string) {
    match job
    case Deletion(e, readRev) =>
      && readRev < |hist| && e.name in hist[readRev].api && hist[readRev].api[e.name] == e
      && e.deleting && Faithful(hist, e) && kname == KrakendName(c.ns, e.spec)
    case Sync(_, hash) => hash != ""
  }

  function ReadRev(job: Job): nat {
    match job
    case Deletion(_, r) => r
    case Sync(_, _) => 0
  }

  /** The version read before the list is still current only if nothing was written since. */
  ghost predicate FreshIfCurrent(s: State, n: string, cm: ConfigMap, cmRev: nat)
    requires s.hist != []
  {
    && cm.version <= cmRev < |s.hist|
    && (n in Cur(s).cms && Cur(s).cms[n].version == cm.version ==> WrittenBy(s.log, n, cmRev))
  }

  ghost predicate ClearanceOk(c: Config, hist: seq<Store>, log: seq<Write>,
                              e: ApiEndpoints, readRev: nat, why: Clearance) {
    match why
    case KrakendAbsent(at) =>
      readRev <= at < |hist| && KrakendName(c.ns, e.spec) !in hist[at].krakends
    case Written(i) =>
      i < |log| && log[i].cm == CmName(KrakendName(c.ns, e.spec)) && readRev <= log[i].listRev
  }

  ghost predicate Held(s: State, n: string)
    requires s.hist != []
  {
    n in Cur(s).api && KRAKEND_FINALIZER in Cur(s).api[n].finalizers
  }

  ghost predicate WorkerOk(c: Config, s: State, pc: Pc)
    requires s.hist != []
  {
    match pc
    case Idle => true
    case Fetched(job, kname) => JobOk(c, s.hist, job, kname)
    case HaveKrakend(job, k) => JobOk(c, s.hist, job, k.name)
    case HaveConfigMap(job, k, cm, cmRev) =>
      && JobOk(c, s.hist, job, k.name) && ReadRev(job) <= cmRev
      && FreshIfCurrent(s, CmName(k.name), cm, cmRev)
    case HaveList(job, k, cm, cmRev, listRev, items, out) =>
      && JobOk(c, s.hist, job, k.name) && ReadRev(job) <= cmRev <= listRev < |s.hist|
      && FreshIfCurrent(s, CmName(k.name), cm, cmRev)
      && Enumerates(LiveOf(s.hist[listRev].api), items) && Compile(k, items) == Some(out)
    case Cleared(e, readRev, why) =>
      && JobOk(c, s.hist, Deletion(e, readRev), KrakendName(c.ns, e.spec))
      && ClearanceOk(c, s.hist, s.log, e, readRev, why)
    case Wrote(_, hash, _) => hash != ""
    case Claiming(name, hash, base, _) => hash != "" && base.name == name && Faithful(s.hist, base)
    case Claimed(name, hash) => hash != "" && Held(s, name)
    case Recording(name, hash, base) =>
      hash != "" && Held(s, name) && base.name == name && Faithful(s.hist, base)
  }

  ghost predicate WorkersOk(c: Config, s: State)
    requires s.hist != []
  {
    && (forall w: nat :: WorkerOk(c, s, At(s, w)))
    && (forall w: nat, w': nat :: w != w' && Key(At(s, w)).Some? ==> Key(At(s, w)) != Key(At(s, w')))
  }

  /** The Krakend worker never reaches the overwriting branch for an existing partials ConfigMap. */
  ghost predicate KWorkerOk(s: State)
    requires s.hist != []
  {
    match s.kworker
    case KIdle => true
    case KNext(_) => true
    case KCreating(r, _) => IsPartials(r.name) ==> r.name !in Cur(s).cms
    case KExisting(r, _) => !IsPartials(r.name)
    case KUpdating(r, _, _) => !IsPartials(r.name)
  }

  ghost predicate Inv(c: Config, s: State) {
    && HistOk(s.hist) && LogOk(s.hist, s.log) && CmsOk(s) && WorkersOk(c, s) && KWorkerOk(s)
  }

  // ----- the history of stores -----

  /** Appending keeps what is known about earlier revisions. */
  lemma OlderStoresOk(hist: seq<Store>, st: Store)
    requires HistOk(hist)
    ensures var h := hist + [st]; forall r :: 0 <= r < |hist| ==> StoreOk(h, r)
  {
    var h := hist + [st];
    forall r | 0 <= r < |hist| ensures StoreOk(h, r) {
      assert StoreOk(hist, r);
      assert h[r] == hist[r];
      forall n | n in h[r].api ensures Faithful(h, h[r].api[n]) {
        assert h[h[r].api[n].version] == hist[h[r].api[n].version];
      }
    }
  }

  ghost predicate NoneRevived(st: Store, st': Store, bound: nat) {
    forall u: nat :: u < bound && Dead(st, u) ==> Dead(st', u)
  }

  lemma HistAppend(hist: seq<Store>, st: Store)
    requires HistOk(hist) && StoreOk(hist + [st], |hist|) && NoneRevived(hist[|hist| - 1], st, |hist|)
    ensures HistOk(hist + [st])
  {
    OlderStoresOk(hist, st);
    DeadAppend(hist, st);
  }

  /** A commit that leaves the ApiEndpoints alone. */
  lemma CommitElsewhere(hist: seq<Store>, st: Store)
    requires HistOk(hist)
    requires st.api == hist[|hist| - 1].api
    requires forall n :: n in st.krakends ==> st.krakends[n].name == n
    requires forall n :: n in st.cms ==> st.cms[n].version <= |hist|
    ensures HistOk(hist + [st])
  {
    var h, r := hist + [st], |hist|;
    OlderStoresOk(hist, st);
    assert StoreOk(hist, r - 1) && StoreOk(h, r - 1);
    assert h[r].api == h[r - 1].api;
    HistAppend(hist, st);
  }

  lemma DeadAppend(hist: seq<Store>, st: Store)
    requires hist != [] && DeadStays(hist) && NoneRevived(hist[|hist| - 1], st, |hist|)
    ensures DeadStays(hist + [st])
  {
    var h, r := hist + [st], |hist|;
    forall a, b, u: nat | 0 <= a <= b < |h| && u <= a && Dead(h[a], u) ensures Dead(h[b], u) {
      if b == r && a < r { assert Dead(hist[r - 1], u); }
    }
  }

  /** What a write to one resource must satisfy relative to the current store. */
  ghost predicate GoodPut(hist: seq<Store>, e: ApiEndpoints)
    requires hist != []
  {
    var api := hist[|hist| - 1].api;
    && Guarded(e)
    && (e.deleting || UniqueLive(api[e.name := e]))
    && (if e.name in api
        then e.uid == api[e.name].uid && (api[e.name].deleting ==> e.deleting)
        else e.uid == |hist|)
  }

  lemma UniqueAfterPut(api: map<string, ApiEndpoints>, e: ApiEndpoints, e': ApiEndpoints)
    requires UniqueLive(api) && (e.deleting || UniqueLive(api[e.name := e]))
    requires e'.name == e.name && e'.deleting == e.deleting && e'.spec == e.spec
    ensures UniqueLive(api[e.name := e'])
    ensures UniqueLive(api - {e.name})
  {
    var a, b := api[e.name := e], api[e.name := e'];
    if e.deleting {
      assert forall n :: LiveIn(b, n) ==> LiveIn(api, n) && b[n] == api[n];
    } else {
      assert forall n :: LiveIn(b, n) ==> LiveIn(a, n) && b[n].spec == a[n].spec;
    }
    assert forall n :: LiveIn(api - {e.name}, n) ==> LiveIn(api, n);
  }

  lemma CommitPut(hist: seq<Store>, e: ApiEndpoints)
    requires HistOk(hist) && GoodPut(hist, e)
    ensures HistOk(hist + [PutApi(hist[|hist| - 1], e, |hist|)])
  {
    PutKeepsUnique(hist, e);
    PutKeepsUids(hist, e);
    PutApiOk(hist, e);
    PutKeepsDead(hist, e);
    HistAppend(hist, PutApi(hist[|hist| - 1], e, |hist|));
  }

  lemma PutKeepsUnique(hist: seq<Store>, e: ApiEndpoints)
    requires HistOk(hist) && GoodPut(hist, e)
    ensures UniqueLive(PutApi(hist[|hist| - 1], e, |hist|).api)
  {
    assert StoreOk(hist, |hist| - 1);
    UniqueAfterPut(hist[|hist| - 1].api, e, e.(version := |hist|));
  }

  lemma PutKeepsDead(hist: seq<Store>, e: ApiEndpoints)
    requires HistOk(hist) && GoodPut(hist, e)
    ensures NoneRevived(hist[|hist| - 1], PutApi(hist[|hist| - 1], e, |hist|), |hist|)
  {
  }

  lemma PutApiOk(hist: seq<Store>, e: ApiEndpoints)
    requires HistOk(hist) && GoodPut(hist, e)
    requires UniqueLive(PutApi(hist[|hist| - 1], e, |hist|).api)
    requires UidsDistinct(PutApi(hist[|hist| - 1], e, |hist|).api)
    ensures StoreOk(hist + [PutApi(hist[|hist| - 1], e, |hist|)], |hist|)
  {
    var r := |hist|;
    var st := PutApi(hist[r - 1], e, r);
    var h := hist + [st];
    assert StoreOk(hist, r - 1);
    assert h[r] == st;
    forall n | n in st.api ensures ObjectOk(h, r, n, st.api[n]) {
      PutObjectOk(hist, e, n);
    }
  }

  lemma PutObjectOk(hist: seq<Store>, e: ApiEndpoints, n: string)
    requires HistOk(hist) && GoodPut(hist, e) && n in PutApi(hist[|hist| - 1], e, |hist|).api
    ensures var st := PutApi(hist[|hist| - 1], e, |hist|);
            ObjectOk(hist + [st], |hist|, n, st.api[n])
  {
    var r := |hist|;
    var cur, st := hist[r - 1], PutApi(hist[r - 1], e, r);
    var h := hist + [st];
    assert StoreOk(hist, r - 1);
    assert h[r] == st;
    if n != e.name {
      assert n in cur.api && st.api[n] == cur.api[n];
      assert ObjectOk(hist, r - 1, n, cur.api[n]);
      assert h[cur.api[n].version] == hist[cur.api[n].version];
    }
  }

  ghost predicate UidsDistinct(api: map<string, ApiEndpoints>) {
    forall n, m :: n in api && m in api && api[n].uid == api[m].uid ==> n == m
  }

  lemma PutKeepsUids(hist: seq<Store>, e: ApiEndpoints)
    requires HistOk(hist) && GoodPut(hist, e)
    ensures UidsDistinct(PutApi(hist[|hist| - 1], e, |hist|).api)
  {
    var api, api' := hist[|hist| - 1].api, PutApi(hist[|hist| - 1], e, |hist|).api;
    assert StoreOk(hist, |hist| - 1);
    forall n, m | n in api' && m in api' && api'[n].uid == api'[m].uid ensures n == m {
      if n != e.name && m != e.name {
        assert api'[n] == api[n] && api'[m] == api[m];
      }
    }
  }

  // ----- listings -----

  lemma {:induction false} FilterLiveMembers(items: seq<ApiEndpoints>)
    requires DistinctNames(items)
    ensures forall x :: x in FilterLive(items) <==> x in items && !x.deleting
    ensures DistinctNames(FilterLive(items))
  {
    if items != [] {
      var front, last := items[..|items| - 1], items[|items| - 1];
      FilterLiveMembers(front);
      assert items == front + [last];
      LastStaysDistinct(front, last, FilterLive(front));
    }
  }

  lemma {:induction false} LastStaysDistinct(front: seq<ApiEndpoints>, last: ApiEndpoints, f: seq<ApiEndpoints>)
    requires DistinctNames(front + [last]) && DistinctNames(f)
    requires forall x :: x in f ==> x in front
    ensures DistinctNames(f + [last]) && f + [] == f
  {
    forall i | 0 <= i < |f| ensures f[i].name != last.name {
      assert f[i] in f;
      var k :| 0 <= k < |front| && front[k] == f[i];
      assert (front + [last])[k] == f[i] && (front + [last])[|front|] == last;
    }
  }

  /** The reconciler's filter and the webhook's notion of live agree on any listing. */
  lemma {:induction false} FilteredListing(api: map<string, ApiEndpoints>, listed: seq<ApiEndpoints>)
    requires NamesMatch(api) && Enumerates(api, listed)
    ensures Enumerates(LiveOf(api), FilterLive(listed))
  {
    FilterLiveMembers(listed);
    var f, live := FilterLive(listed), LiveOf(api);
    forall i | 0 <= i < |f| ensures f[i].name in live && live[f[i].name] == f[i] {
      assert f[i] in f;
    }
  }

  // ----- other workers are not disturbed -----

  ghost predicate Grows(s: State, s': State) {
    s.hist != [] && s.hist <= s'.hist && s.log <= s'.log
  }

  /** A ConfigMap keeps its version and its write history, or gets a version never seen before. */
  ghost predicate CmFrame(s: State, s': State)
    requires s.hist != [] && s'.hist != []
  {
    forall n :: n in Cur(s').cms ==>
      || Cur(s').cms[n].version >= |s.hist|
      || (&& n in Cur(s).cms && Cur(s').cms[n].version == Cur(s).cms[n].version
          && forall r: nat :: WrittenBy(s.log, n, r) ==> WrittenBy(s'.log, n, r))
  }

  lemma WorkerStable(c: Config, s: State, s': State, pc: Pc)
    requires Grows(s, s') && CmFrame(s, s') && WorkerOk(c, s, pc)
    requires Key(pc).Some? && Held(s, Key(pc).value) ==> Held(s', Key(pc).value)
    ensures WorkerOk(c, s', pc)
  {
    if pc.HaveConfigMap? || pc.HaveList? {
      var n := CmName(pc.k.name);
      if n in Cur(s').cms && Cur(s').cms[n].version == pc.cm.version {
        assert WrittenBy(s.log, n, pc.cmRev);
      }
    }
  }

  /** Worker `w` moves to `pc` while the shared state goes from `s` to `s'`. */
  lemma WorkersAfter(c: Config, s: State, s': State, w: nat, pc: Pc)
    requires Inv(c, s) && Grows(s, s') && CmFrame(s, s')
    requires s'.workers == s.workers[w := pc] && WorkerOk(c, s', pc)
    requires Key(pc).None? || Key(pc) == Key(At(s, w)) || forall w' :: Key(At(s, w')) != Key(pc)
    requires forall n :: Held(s, n) && Key(At(s, w)) != Some(n) ==> Held(s', n)
    ensures WorkersOk(c, s')
  {
    forall v: nat ensures WorkerOk(c, s', At(s', v)) {
      if v != w {
        assert At(s', v) == At(s, v);
        if Key(At(s, v)).Some? { assert Key(At(s, v)) != Key(At(s, w)); }
        WorkerStable(c, s, s', At(s, v));
      }
    }
    forall v: nat, v': nat | v != v' && Key(At(s', v)).Some? ensures Key(At(s', v)) != Key(At(s', v')) {
      assert v != w ==> At(s', v) == At(s, v);
      assert v' != w ==> At(s', v') == At(s, v');
    }
  }

  lemma WorkersIdleBy(c: Config, s: State, s': State)
    requires Inv(c, s) && Grows(s, s') && CmFrame(s, s')
    requires s'.workers == s.workers
    requires forall n :: Held(s, n) ==> Held(s', n)
    ensures WorkersOk(c, s')
  {
    forall v: nat ensures WorkerOk(c, s', At(s', v)) {
      WorkerStable(c, s, s', At(s, v));
    }
    forall v: nat, v': nat | v != v' && Key(At(s', v)).Some? ensures Key(At(s', v)) != Key(At(s', v')) {
      assert At(s', v) == At(s, v) && At(s', v') == At(s, v');
    }
  }

  lemma LogStable(hist: seq<Store>, hist': seq<Store>, log: seq<Write>)
    requires LogOk(hist, log) && hist <= hist'
    ensures LogOk(hist', log)
  {
  }

  // ----- one step, by kind -----

  /** A step that only moves a worker. */
  lemma MoveOk(c: Config, s: State, w: nat, pc: Pc)
    requires Inv(c, s) && WorkerOk(c, s, pc)
    requires Key(pc).None? || Key(pc) == Key(At(s, w)) || forall w' :: Key(At(s, w')) != Key(pc)
    ensures Inv(c, Move(s, w, pc))
  {
    var s' := Move(s, w, pc);
    WorkersAfter(c, s, s', w, pc);
  }

  /** A commit of one resource keeps everything but, possibly, what workers know about that resource. */
  lemma PutFrame(c: Config, s: State, e: ApiEndpoints)
    requires Inv(c, s) && GoodPut(s.hist, e)
    ensures var s' := Commit(s, PutApi(Cur(s), e, |s.hist|));
            && HistOk(s'.hist) && LogOk(s'.hist, s'.log) && CmsOk(s') && KWorkerOk(s')
            && Grows(s, s') && CmFrame(s, s')
            && (forall n :: Held(s, n) && (n != e.name || KRAKEND_FINALIZER in e.finalizers) ==> Held(s', n))
  {
    CommitPut(s.hist, e);
    LogStable(s.hist, s.hist + [PutApi(Cur(s), e, |s.hist|)], s.log);
  }

  /** A commit of one resource by nobody in particular. */
  lemma UserPutOk(c: Config, s: State, e: ApiEndpoints)
    requires Inv(c, s) && GoodPut(s.hist, e)
    requires Held(s, e.name) ==> KRAKEND_FINALIZER in e.finalizers
    ensures Inv(c, Commit(s, PutApi(Cur(s), e, |s.hist|)))
  {
    PutFrame(c, s, e);
    WorkersIdleBy(c, s, Commit(s, PutApi(Cur(s), e, |s.hist|)));
  }

  /** A commit of the resource a worker holds the key of. */
  lemma WorkerPutOk(c: Config, s: State, w: nat, e: ApiEndpoints, pc: Pc)
    requires Inv(c, s) && GoodPut(s.hist, e) && Key(At(s, w)) == Some(e.name)
    requires pc.Idle? || (Key(pc) == Some(e.name) && WorkerOk(c, Commit(s, PutApi(Cur(s), e, |s.hist|)), pc))
    ensures Inv(c, Move(Commit(s, PutApi(Cur(s), e, |s.hist|)), w, pc))
  {
    PutFrame(c, s, e);
    var s' := Move(Commit(s, PutApi(Cur(s), e, |s.hist|)), w, pc);
    assert WorkerOk(c, s', pc);
    WorkersAfter(c, s, s', w, pc);
  }

  /** A commit that leaves ApiEndpoints and partials ConfigMaps alone, or drops a ConfigMap, or adds a new one. */
  lemma ElsewhereOk(c: Config, s: State, st: Store, kpc: KPc)
    requires Inv(c, s)
    requires st.api == Cur(s).api
    requires forall n :: n in st.krakends ==> st.krakends[n].name == n
    requires forall n :: n in st.cms ==>
               || (n in Cur(s).cms && st.cms[n] == Cur(s).cms[n])
               || (&& st.cms[n].version == |s.hist|
                   && (IsPartials(n) ==> !(st.cms[n].data.Some? && st.cms[n].data.value.Partials?)))
    requires KWorkerOk(Commit(s, st).(kworker := kpc))
    ensures Inv(c, Commit(s, st).(kworker := kpc))
  {
    var s' := Commit(s, st).(kworker := kpc);
    assert StoreOk(s.hist, |s.hist| - 1);
    CommitElsewhere(s.hist, st);
    LogStable(s.hist, s'.hist, s.log);
    WorkersIdleBy(c, s, s');
    forall n | n in Cur(s').cms && IsPartials(n) ensures CmOk(s'.log, n, Cur(s').cms[n]) {
      if Cur(s').cms[n].version == |s.hist| {
        forall i | 0 <= i < |s.log| ensures s.log[i].commitRev <= |s.hist| {
          assert WriteOk(s.hist, s.log[i]);
        }
      } else {
        assert CmOk(s.log, n, Cur(s).cms[n]);
      }
    }
  }

  lemma UserStep(c: Config, s: State, ev: Event)
    requires ConfigOk(c) && Inv(c, s) && Enabled(c, s, ev)
    requires ev.UserCreate? || ev.UserUpdate? || ev.UserDelete?
    ensures Inv(c, Apply(c, s, ev))
  {
    assert StoreOk(s.hist, |s.hist| - 1);
    var api := Cur(s).api;
    match ev
    case UserCreate(n, spec, fs, owners) =>
      UserPutOk(c, s, NewEndpoints(s, n, spec, fs, owners));
    case UserUpdate(n, spec, fs, owners) =>
      UserPutOk(c, s, api[n].(spec := spec, finalizers := fs, owners := owners));
    case UserDelete(n) =>
      UserPutOk(c, s, api[n].(deleting := true));
  }

  /** Users and garbage collection at work on Krakends and ConfigMaps; time. */
  lemma ElsewhereStep(c: Config, s: State, ev: Event)
    requires ConfigOk(c) && Inv(c, s) && Enabled(c, s, ev)
    requires ev.PutKrakend? || ev.DeleteKrakend? || ev.PutConfigMap? || ev.DeleteConfigMap? || ev.Tick?
    ensures Inv(c, Apply(c, s, ev))
  {
    assert StoreOk(s.hist, |s.hist| - 1);
    var s' := Apply(c, s, ev);
    if ev.Tick? {
      WorkersIdleBy(c, s, s');
    } else {
      assert s' == Commit(s, Cur(s')).(kworker := s.kworker);
      ElsewhereOk(c, s, Cur(s'), s.kworker);
    }
  }

  lemma KCreateOk(c: Config, s: State)
    requires Inv(c, s) && s.kworker.KCreating?
    ensures Inv(c, DoKCreate(s))
  {
    assert StoreOk(s.hist, |s.hist| - 1);
    var s' := DoKCreate(s);
    if |s'.hist| > |s.hist| {
      ElsewhereOk(c, s, Cur(s'), s'.kworker);
    } else {
      WorkersIdleBy(c, s, s');
    }
  }

  lemma KUpdateOk(c: Config, s: State)
    requires Inv(c, s) && s.kworker.KUpdating?
    ensures Inv(c, DoKUpdate(s))
  {
    assert StoreOk(s.hist, |s.hist| - 1);
    var s' := DoKUpdate(s);
    if |s'.hist| > |s.hist| {
      ElsewhereOk(c, s, Cur(s'), s'.kworker);
    } else {
      WorkersIdleBy(c, s, s');
    }
  }

  lemma KrakendWorkerStep(c: Config, s: State, ev: Event)
    requires ConfigOk(c) && Inv(c, s) && Enabled(c, s, ev)
    requires ev.KBegin? || ev.KGet? || ev.KCreate? || ev.KGetExisting? || ev.KUpdate? || ev.KStop?
    ensures Inv(c, Apply(c, s, ev))
  {
    if ev.KCreate? {
      KCreateOk(c, s);
    } else if ev.KUpdate? {
      KUpdateOk(c, s);
    } else {
      WorkersIdleBy(c, s, Apply(c, s, ev));
    }
  }

  // The position reached by each read is sound.

  lemma AfterGetOk(c: Config, s: State, n: string)
    requires ConfigOk(c) && Inv(c, s)
    ensures WorkerOk(c, s, AfterGet(c, s, n))
    ensures Key(AfterGet(c, s, n)).Some? ==> Key(AfterGet(c, s, n)) == Some(n)
  {
    assert StoreOk(s.hist, |s.hist| - 1);
  }

  lemma AfterGetKrakendOk(c: Config, s: State, pc: Pc)
    requires Inv(c, s) && WorkerOk(c, s, pc) && pc.Fetched?
    ensures WorkerOk(c, s, AfterGetKrakend(s, pc))
  {
    assert StoreOk(s.hist, |s.hist| - 1);
  }

  lemma AllWrittenByNow(s: State, n: string)
    requires LogOk(s.hist, s.log)
    ensures s.hist != [] ==> WrittenBy(s.log, n, |s.hist| - 1)
    ensures WrittenBy(s.log, n, |s.hist|)
  {
    forall i | 0 <= i < |s.log| ensures s.log[i].commitRev < |s.hist| {
      assert WriteOk(s.hist, s.log[i]);
    }
  }

  lemma AfterGetConfigMapOk(c: Config, s: State, pc: Pc)
    requires Inv(c, s) && WorkerOk(c, s, pc) && pc.HaveKrakend?
    ensures WorkerOk(c, s, AfterGetConfigMap(s, pc))
  {
    assert StoreOk(s.hist, |s.hist| - 1);
    AllWrittenByNow(s, CmName(pc.k.name));
  }

  /** The listing was given up, or the live resources were compiled. */
  ghost predicate ListedOk(s: State, pc: Pc, q: Pc)
    requires s.hist != [] && pc.HaveConfigMap?
  {
    || q.Idle?
    || (&& q.HaveList? && q == HaveList(pc.job, pc.k, pc.cm, pc.cmRev, |s.hist| - 1, q.items, q.out)
        && Enumerates(LiveOf(Cur(s).api), q.items) && Compile(q.k, q.items) == Some(q.out))
  }

  lemma {:induction false} AfterListShape(s: State, pc: Pc, listed: seq<ApiEndpoints>)
    requires s.hist != [] && pc.HaveConfigMap? && NamesMatch(Cur(s).api) && Enumerates(Cur(s).api, listed)
    ensures ListedOk(s, pc, AfterList(s, pc, listed))
  {
    FilteredListing(Cur(s).api, listed);
  }

  lemma AfterListOk(c: Config, s: State, pc: Pc, q: Pc)
    requires Inv(c, s) && WorkerOk(c, s, pc) && pc.HaveConfigMap? && ListedOk(s, pc, q)
    ensures WorkerOk(c, s, q)
  {
  }

  lemma AfterRefetchOk(c: Config, s: State, pc: Pc)
    requires Inv(c, s) && WorkerOk(c, s, pc) && pc.Wrote?
    ensures WorkerOk(c, s, AfterRefetch(s, pc))
  {
    assert StoreOk(s.hist, |s.hist| - 1);
  }

  lemma ListStep(c: Config, s: State, w: nat, listed: seq<ApiEndpoints>)
    requires Inv(c, s) && At(s, w).HaveConfigMap? && Enumerates(Cur(s).api, listed)
    ensures Inv(c, Move(s, w, AfterList(s, At(s, w), listed)))
  {
    var pc := At(s, w);
    assert WorkerOk(c, s, pc);
    assert StoreOk(s.hist, |s.hist| - 1);
    AfterListShape(s, pc, listed);
    AfterListOk(c, s, pc, AfterList(s, pc, listed));
    MoveOk(c, s, w, AfterList(s, pc, listed));
  }

  /** Reads before the ConfigMap write. */
  lemma EarlyReadStep(c: Config, s: State, ev: Event)
    requires ConfigOk(c) && Inv(c, s) && Enabled(c, s, ev)
    requires ev.Begin? || ev.GetKrakend? || ev.GetConfigMap? || ev.ListEndpoints?
    ensures Inv(c, Apply(c, s, ev))
  {
    var pc := At(s, ev.w);
    assert WorkerOk(c, s, pc);
    match ev {
      case Begin(w, n) =>
        AfterGetOk(c, s, n);
        MoveOk(c, s, w, AfterGet(c, s, n));
      case GetKrakend(w) =>
        AfterGetKrakendOk(c, s, pc);
        MoveOk(c, s, w, AfterGetKrakend(s, pc));
      case GetConfigMap(w) =>
        AfterGetConfigMapOk(c, s, pc);
        MoveOk(c, s, w, AfterGetConfigMap(s, pc));
      case ListEndpoints(w, listed) =>
        ListStep(c, s, w, listed);
    }
  }

  /** Reads after it. */
  lemma LateReadStep(c: Config, s: State, ev: Event)
    requires ConfigOk(c) && Inv(c, s) && Enabled(c, s, ev)
    requires ev.Refetch? || ev.RefetchAgain?
    ensures Inv(c, Apply(c, s, ev))
  {
    var pc := At(s, ev.w);
    assert WorkerOk(c, s, pc);
    match ev {
      case Refetch(w) =>
        AfterRefetchOk(c, s, pc);
        MoveOk(c, s, w, AfterRefetch(s, pc));
      case RefetchAgain(w) =>
        assert StoreOk(s.hist, |s.hist| - 1);
        MoveOk(c, s, w, Recording(pc.name, pc.hash, Cur(s).api[pc.name]));
    }
  }

  /** A version match means that the snapshot is the stored object. */
  lemma SnapshotCurrent(c: Config, s: State, e: ApiEndpoints)
    requires Inv(c, s) && Faithful(s.hist, e)
    requires e.name in Cur(s).api && Cur(s).api[e.name].version == e.version
    ensures Cur(s).api[e.name] == e && e.uid <= |s.hist| - 1 && Guarded(e) && UniqueLive(Cur(s).api)
  {
    assert StoreOk(s.hist, |s.hist| - 1);
    assert Faithful(s.hist, Cur(s).api[e.name]);
  }

  lemma RemoveFinalizerOk(c: Config, s: State, w: nat)
    requires Inv(c, s) && At(s, w).Cleared?
    ensures Inv(c, DoRemoveFinalizer(s, w))
  {
    var pc := At(s, w);
    assert WorkerOk(c, s, pc);
    if DoRemoveFinalizer(s, w) == Move(s, w, Idle) {
      MoveOk(c, s, w, Idle);
    } else {
      SnapshotCurrent(c, s, pc.e);
      WorkerPutOk(c, s, w, pc.e.(finalizers := pc.e.finalizers - {KRAKEND_FINALIZER}), Idle);
    }
  }

  lemma UpdateEndpointsOk(c: Config, s: State, w: nat)
    requires Inv(c, s) && At(s, w).Claiming?
    ensures Inv(c, DoUpdateEndpoints(c, s, w))
  {
    var pc := At(s, w);
    assert WorkerOk(c, s, pc);
    if DoUpdateEndpoints(c, s, w) == Move(s, w, Idle) {
      MoveOk(c, s, w, Idle);
    } else {
      SnapshotCurrent(c, s, pc.base);
      WorkerPutOk(c, s, w, Claim(pc.base, pc.k), Claimed(pc.name, pc.hash));
    }
  }

  lemma UpdateStatusOk(c: Config, s: State, w: nat)
    requires Inv(c, s) && At(s, w).Recording?
    ensures Inv(c, DoUpdateStatus(s, w))
  {
    var pc := At(s, w);
    assert WorkerOk(c, s, pc);
    if DoUpdateStatus(s, w) == Move(s, w, Idle) {
      MoveOk(c, s, w, Idle);
    } else {
      SnapshotCurrent(c, s, pc.base);
      var e, api := pc.base.(status := Status(s.clock, pc.hash)), Cur(s).api;
      assert api[e.name := pc.base] == api;
      UniqueAfterPut(api, pc.base, e);
      WorkerPutOk(c, s, w, e, Idle);
    }
  }

  // The optimistic ConfigMap write.

  ghost predicate GoesThrough(s: State, w: nat)
    requires s.hist != [] && At(s, w).HaveList?
  {
    var pc := At(s, w);
    var n := CmName(pc.k.name);
    n in Cur(s).cms && Cur(s).cms[n].version == pc.cm.version
  }

  /** What a successful write changes. */
  lemma WriteShape(c: Config, s: State, w: nat)
    requires Inv(c, s) && At(s, w).HaveList? && GoesThrough(s, w)
    ensures var s', pc, n := DoUpdateConfigMap(c, s, w), At(s, w), CmName(At(s, w).k.name);
            && |s'.log| == |s.log| + 1 && s.log <= s'.log && s.hist <= s'.hist
            && var entry := s'.log[|s.log|];
            && entry == Write(n, pc.k, pc.listRev, |s'.hist| - 1, pc.items, pc.out, entry.effective)
            && s'.kworker == s.kworker
            && Cur(s').api == Cur(s).api && Cur(s').krakends == Cur(s).krakends
            && (if entry.effective
                then s'.hist == s.hist + [Cur(s')]
                     && Cur(s').cms == Cur(s).cms[n := ConfigMap(|s.hist|, Some(Partials(pc.out)))]
                else s'.hist == s.hist)
  {
  }

  lemma WrittenByAppend(log: seq<Write>, entry: Write, n: string, r: nat)
    requires WrittenBy(log, n, r)
    requires entry.cm != n || !entry.effective || entry.commitRev <= r
    ensures WrittenBy(log + [entry], n, r)
  {
  }

  lemma CmOkAppend(log: seq<Write>, entry: Write, n: string, cm: ConfigMap)
    requires CmOk(log, n, cm) && (entry.cm != n || !entry.effective)
    ensures CmOk(log + [entry], n, cm)
  {
    WrittenByAppend(log, entry, n, cm.version);
    if cm.data.Some? && cm.data.value.Partials? {
      var i :| 0 <= i < |log| && log[i].cm == n && log[i].effective
               && log[i].commitRev == cm.version && log[i].endpoints == cm.data.value.endpoints;
      assert (log + [entry])[i] == log[i];
    }
  }

  lemma LogAppendOk(hist: seq<Store>, log: seq<Write>, entry: Write)
    requires LogOk(hist, log) && WriteOk(hist, entry) && WrittenBy(log, entry.cm, entry.listRev)
    requires forall i :: 0 <= i < |log| ==> log[i].commitRev <= entry.commitRev
    ensures LogOk(hist, log + [entry])
  {
  }

  lemma UpdateConfigMapOk(c: Config, s: State, w: nat)
    requires Inv(c, s) && At(s, w).HaveList?
    ensures Inv(c, DoUpdateConfigMap(c, s, w))
  {
    var pc, s' := At(s, w), DoUpdateConfigMap(c, s, w);
    var n := CmName(pc.k.name);
    assert WorkerOk(c, s, pc);
    if !GoesThrough(s, w) {
      MoveOk(c, s, w, Idle);
    } else {
      WrittenHistOk(c, s, w);
      WrittenLogOk(c, s, w);
      WrittenCmsOk(c, s, w);
      WrittenFrame(c, s, w);
      WrittenPc(c, s, w);
      WorkersAfter(c, s, s', w, At(s', w));
    }
  }

  lemma WrittenHistOk(c: Config, s: State, w: nat)
    requires Inv(c, s) && At(s, w).HaveList? && GoesThrough(s, w)
    ensures HistOk(DoUpdateConfigMap(c, s, w).hist)
  {
    var s' := DoUpdateConfigMap(c, s, w);
    WriteShape(c, s, w);
    assert StoreOk(s.hist, |s.hist| - 1);
    if |s'.hist| > |s.hist| {
      CommitElsewhere(s.hist, Cur(s'));
    }
  }

  lemma WrittenLogOk(c: Config, s: State, w: nat)
    requires Inv(c, s) && At(s, w).HaveList? && GoesThrough(s, w)
    ensures var s' := DoUpdateConfigMap(c, s, w); LogOk(s'.hist, s'.log)
  {
    var s', pc := DoUpdateConfigMap(c, s, w), At(s, w);
    WriteShape(c, s, w);
    assert WorkerOk(c, s, pc);
    LogStable(s.hist, s'.hist, s.log);
    var entry := s'.log[|s.log|];
    assert s'.log == s.log + [entry];
    forall i | 0 <= i < |s.log| ensures s.log[i].commitRev <= entry.commitRev {
      assert WriteOk(s.hist, s.log[i]);
    }
    LogAppendOk(s'.hist, s.log, entry);
  }

  lemma WrittenCmsOk(c: Config, s: State, w: nat)
    requires Inv(c, s) && At(s, w).HaveList? && GoesThrough(s, w)
    ensures CmsOk(DoUpdateConfigMap(c, s, w))
  {
    var s' := DoUpdateConfigMap(c, s, w);
    WriteShape(c, s, w);
    var entry := s'.log[|s.log|];
    assert s'.log == s.log + [entry];
    forall m | m in Cur(s').cms && IsPartials(m) ensures CmOk(s'.log, m, Cur(s').cms[m]) {
      if entry.effective && m == entry.cm {
        AllWrittenByNow(s, m);
        WrittenByAppend(s.log, entry, m, |s.hist|);
        assert s'.log[|s.log|] == entry;
      } else {
        CmOkAppend(s.log, entry, m, Cur(s).cms[m]);
      }
    }
  }

  lemma WrittenFrame(c: Config, s: State, w: nat)
    requires Inv(c, s) && At(s, w).HaveList? && GoesThrough(s, w)
    ensures var s' := DoUpdateConfigMap(c, s, w);
            && Grows(s, s') && CmFrame(s, s') && KWorkerOk(s') && forall n :: Held(s, n) ==> Held(s', n)
  {
    var s' := DoUpdateConfigMap(c, s, w);
    WriteShape(c, s, w);
    var entry := s'.log[|s.log|];
    assert s'.log == s.log + [entry];
    forall m, r: nat | m in Cur(s').cms && Cur(s').cms[m].version < |s.hist| && WrittenBy(s.log, m, r)
      ensures WrittenBy(s'.log, m, r)
    {
      WrittenByAppend(s.log, entry, m, r);
    }
  }

  lemma WrittenPc(c: Config, s: State, w: nat)
    requires Inv(c, s) && At(s, w).HaveList? && GoesThrough(s, w)
    ensures var s' := DoUpdateConfigMap(c, s, w);
            && WorkerOk(c, s', At(s', w)) && Key(At(s', w)) == Key(At(s, w))
            && s'.workers == s.workers[w := At(s', w)]
  {
    var s', pc := DoUpdateConfigMap(c, s, w), At(s, w);
    WriteShape(c, s, w);
    assert WorkerOk(c, s, pc);
    if pc.job.Deletion? {
      assert At(s', w) == Cleared(pc.job.e, pc.job.readRev, Written(|s.log|));
      assert s'.hist[pc.job.readRev] == s.hist[pc.job.readRev];
    }
  }

  /** Every step of every participant keeps the invariant. */
  lemma StepKeepsInv(c: Config, s: State, ev: Event)
    requires ConfigOk(c) && Inv(c, s) && Enabled(c, s, ev)
    ensures Inv(c, Apply(c, s, ev))
  {
    if ev.UserCreate? || ev.UserUpdate? || ev.UserDelete? {
      UserStep(c, s, ev);
    } else if ev.RemoveFinalizer? {
      RemoveFinalizerOk(c, s, ev.w);
    } else if ev.UpdateEndpoints? {
      UpdateEndpointsOk(c, s, ev.w);
    } else if ev.UpdateStatus? {
      UpdateStatusOk(c, s, ev.w);
    } else if ev.UpdateConfigMap? {
      UpdateConfigMapOk(c, s, ev.w);
    } else if ev.Begin? || ev.GetKrakend? || ev.GetConfigMap? || ev.ListEndpoints? {
      EarlyReadStep(c, s, ev);
    } else if ev.Refetch? || ev.RefetchAgain? {
      LateReadStep(c, s, ev);
    } else if ev.Fail? {
      MoveOk(c, s, ev.w, Idle);
    } else if ev.PutKrakend? || ev.DeleteKrakend? || ev.PutConfigMap? || ev.DeleteConfigMap? || ev.Tick? {
      ElsewhereStep(c, s, ev);
    } else {
      KrakendWorkerStep(c, s, ev);
    }
  }

  lemma {:induction false} RunKeepsInv(c: Config, tr: seq<State>, evs: seq<Event>, i: nat)
    requires Run(c, tr, evs) && i < |tr|
    ensures Inv(c, tr[i])
  {
    if i == 0 {
      assert forall w :: At(tr[0], w) == Idle;
    } else {
      RunKeepsInv(c, tr, evs, i - 1);
      assert StepAt(c, tr, evs, i - 1);
      StepKeepsInv(c, tr[i - 1], evs[i - 1]);
    }
  }
}
