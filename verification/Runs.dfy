/** Runs of the operator in a small namespace, put together from pieces. */
module Runs {
  import opened ApiTypes
  import opened GatewayCompiler
  import opened Admission
  import opened Protocol
  import opened ProtocolInvariant
  import opened ProtocolTheorems
  import opened Totality
  import opened OneWorker

  // ----- reachable states -----

  /** Some run from an empty namespace ends in `s`. */
  ghost predicate Reached(c: Config, s: State) {
    exists tr, evs :: Run(c, tr, evs) && tr[|tr| - 1] == s
  }

  ghost predicate ProvidersKept(kname: string, tr: seq<State>, evs: seq<Event>) {
    |tr| == |evs| + 1 && forall i :: 0 <= i < |evs| ==> tr[i].hist != [] && KeepsProviders(kname, tr[i], evs[i])
  }

  ghost predicate CrewOnly(crew: set<nat>, tr: seq<State>) {
    forall i :: 0 <= i < |tr| ==> tr[i].workers.Keys <= crew
  }

  /** A run by the workers in `crew`; if `single`, with the one lasting Krakend `kname`. */
  ghost predicate CrewRun(c: Config, kname: string, crew: set<nat>, single: bool, tr: seq<State>, evs: seq<Event>) {
    Run(c, tr, evs) && CrewOnly(crew, tr) && (single ==> ProvidersKept(kname, tr, evs))
  }

  ghost predicate CrewReached(c: Config, kname: string, crew: set<nat>, single: bool, s: State) {
    exists tr, evs :: CrewRun(c, kname, crew, single, tr, evs) && tr[|tr| - 1] == s
  }

  /** No more workers are busy than there are in the crew. */
  lemma CrewBounds(crew: set<nat>, tr: seq<State>, bound: nat)
    requires CrewOnly(crew, tr) && |crew| <= bound
    ensures Bounded(tr, bound)
  {
    forall i | 0 <= i < |tr| ensures |Busy(tr[i])| <= bound {
      SubsetSize(Busy(tr[i]), crew);
    }
  }

  /** A run grows by one enabled step. */
  lemma Extend(c: Config, tr: seq<State>, evs: seq<Event>, ev: Event)
    requires Run(c, tr, evs) && Enabled(c, tr[|tr| - 1], ev)
    ensures Run(c, tr + [Apply(c, tr[|tr| - 1], ev)], evs + [ev])
  {
    var tr', evs' := tr + [Apply(c, tr[|tr| - 1], ev)], evs + [ev];
    forall i | 0 <= i < |evs'| ensures StepAt(c, tr', evs', i) {
      if i < |evs| {
        assert StepAt(c, tr, evs, i);
        assert tr'[i] == tr[i] && evs'[i] == evs[i] && tr'[i + 1] == tr[i + 1];
      }
    }
  }

  lemma ExtendProviders(kname: string, tr: seq<State>, evs: seq<Event>, s': State, ev: Event)
    requires ProvidersKept(kname, tr, evs) && tr[|tr| - 1].hist != [] && KeepsProviders(kname, tr[|tr| - 1], ev)
    ensures ProvidersKept(kname, tr + [s'], evs + [ev])
  {
    var tr', evs' := tr + [s'], evs + [ev];
    forall i | 0 <= i < |evs'| ensures tr'[i].hist != [] && KeepsProviders(kname, tr'[i], evs'[i]) {
      assert tr'[i] == tr[i];
      if i < |evs| { assert evs'[i] == evs[i]; }
    }
  }

  /** A crew's run grows by a step of its own. */
  lemma ExtendCrew(c: Config, kname: string, crew: set<nat>, single: bool, tr: seq<State>, evs: seq<Event>, ev: Event)
    requires CrewRun(c, kname, crew, single, tr, evs) && Enabled(c, tr[|tr| - 1], ev)
    requires single ==> KeepsProviders(kname, tr[|tr| - 1], ev)
    requires Apply(c, tr[|tr| - 1], ev).workers.Keys <= crew
    ensures CrewRun(c, kname, crew, single, tr + [Apply(c, tr[|tr| - 1], ev)], evs + [ev])
  {
    var s' := Apply(c, tr[|tr| - 1], ev);
    Extend(c, tr, evs, ev);
    if single { ExtendProviders(kname, tr, evs, s', ev); }
    CrewAppend(crew, tr, s');
  }

  lemma CrewAppend(crew: set<nat>, tr: seq<State>, s': State)
    requires CrewOnly(crew, tr) && s'.workers.Keys <= crew
    ensures CrewOnly(crew, tr + [s'])
  {
  }

  lemma OneWorkerRun(c: Config, kname: string, single: bool, s: State) returns (tr: seq<State>, evs: seq<Event>)
    requires CrewReached(c, kname, {0}, single, s)
    ensures Run(c, tr, evs) && Bounded(tr, 1) && tr[|tr| - 1] == s && (single ==> OneKrakendRun(c, kname, tr, evs))
  {
    tr, evs :| CrewRun(c, kname, {0}, single, tr, evs) && tr[|tr| - 1] == s;
    CrewBounds({0}, tr, 1);
  }

  lemma CrewIsReached(c: Config, kname: string, crew: set<nat>, single: bool, s: State)
    requires CrewReached(c, kname, crew, single, s)
    ensures Reached(c, s)
  {
    var tr, evs :| CrewRun(c, kname, crew, single, tr, evs) && tr[|tr| - 1] == s;
    assert Run(c, tr, evs) && tr[|tr| - 1] == s;
  }

  lemma ReachedInv(c: Config, s: State)
    requires Reached(c, s)
    ensures Inv(c, s)
  {
    var tr, evs :| Run(c, tr, evs) && tr[|tr| - 1] == s;
    RunKeepsInv(c, tr, evs, |tr| - 1);
  }

  // ----- a small namespace -----

  /** A Krakend with a provider, three resource names and an endpoint, all arbitrary. */
  datatype Cast = Cast(k: Krakend, auth: string, a: string, b: string, y: string, one: Endpoint)

  ghost predicate CastOk(x: Cast) {
    && x.k.name != "" && ProviderNamed(x.k, x.auth)
    && x.a != x.b && x.a != x.y && x.b != x.y
  }

  lemma SomeCast() returns (x: Cast)
    ensures CastOk(x)
  {
    x := Cast(Krakend("k", 0, [AuthProvider("p", "", "", "")]), "p", "a", "b", "y",
              Endpoint("/", "", "", "", [], [], ""));
    assert x.k.providers[0].name == "p";
  }

  /** `good` marks states: an empty namespace, and whatever a step that the play permits leads to. */
  datatype Play = Play(c: Config, x: Cast, crew: set<nat>, single: bool, good: State -> bool)

  ghost predicate Permits(p: Play, s: State, ev: Event)
    requires Enabled(p.c, s, ev)
  {
    && (p.single ==> KeepsProviders(p.x.k.name, s, ev))
    && Apply(p.c, s, ev).workers.Keys <= p.crew
  }

  ghost predicate PlayOk(p: Play) {
    && ConfigOk(p.c) && CastOk(p.x)
    && (forall s :: Init(s) ==> p.good(s))
    && (forall s :: p.good(s) ==> s.workers.Keys <= p.crew)
    && (forall s, ev :: p.good(s) && Enabled(p.c, s, ev) && Permits(p, s, ev) ==> p.good(Apply(p.c, s, ev)))
  }

  /** The play whose good states are those that its crew reaches. */
  ghost function RunsOf(c: Config, x: Cast, crew: set<nat>, single: bool): Play {
    Play(c, x, crew, single, s => CrewReached(c, x.k.name, crew, single, s))
  }

  lemma RunsOfOk(c: Config, x: Cast, crew: set<nat>, single: bool)
    requires ConfigOk(c) && CastOk(x)
    ensures PlayOk(RunsOf(c, x, crew, single))
  {
    var p := RunsOf(c, x, crew, single);
    forall s | Init(s) ensures p.good(s) {
      assert CrewRun(c, x.k.name, crew, single, [s], []) && [s][|[s]| - 1] == s;
    }
    forall s, ev | p.good(s) && Enabled(c, s, ev) && Permits(p, s, ev) ensures p.good(Apply(c, s, ev)) {
      CrewNext(c, x.k.name, crew, single, s, ev);
    }
  }

  lemma CrewNext(c: Config, kname: string, crew: set<nat>, single: bool, s: State, ev: Event)
    requires CrewReached(c, kname, crew, single, s) && Enabled(c, s, ev)
    requires single ==> KeepsProviders(kname, s, ev)
    requires Apply(c, s, ev).workers.Keys <= crew
    ensures CrewReached(c, kname, crew, single, Apply(c, s, ev))
  {
    var tr, evs :| CrewRun(c, kname, crew, single, tr, evs) && tr[|tr| - 1] == s;
    ExtendCrew(c, kname, crew, single, tr, evs, ev);
    var tr', evs' := tr + [Apply(c, s, ev)], evs + [ev];
    assert CrewRun(c, kname, crew, single, tr', evs') && tr'[|tr'| - 1] == Apply(c, s, ev);
  }

  lemma Reach(p: Play, s: State, ev: Event, s': State)
    requires PlayOk(p) && p.good(s) && Enabled(p.c, s, ev) && s' == Apply(p.c, s, ev)
    requires (p.single ==> KeepsProviders(p.x.k.name, s, ev)) && s'.workers.Keys <= s.workers.Keys + p.crew
    ensures p.good(s')
  {
    assert Permits(p, s, ev);
  }

  function SpecOf(x: Cast, eps: seq<Endpoint>): Spec {
    Spec(x.k.name, "", Auth(x.auth, false, false, [], []), None, eps, [])
  }

  function Cm(x: Cast): string {
    CmName(x.k.name)
  }

  /** A text that the chart may render and that is no marshalled list. */
  const BLANK := " []"

  /** The Krakend of `x` and its ConfigMap, with content, are in place. */
  ghost predicate InPlace(x: Cast, st: Store) {
    && x.k.name in st.krakends && st.krakends[x.k.name] == x.k
    && Cm(x) in st.cms && st.cms[Cm(x)].data.Some?
  }

  /** Resource `n` with spec `spec`, live and never synchronized. */
  ghost predicate Unsynced(e: ApiEndpoints, n: string, spec: Spec) {
    e.name == n && e.spec == spec && !e.deleting && e.status.hash == ""
  }

  /** The same once it is claimed; it may be marked for deletion. */
  ghost predicate Claimant(e: ApiEndpoints, n: string, spec: Spec) {
    && e.name == n && e.spec == spec && e.finalizers == {KRAKEND_FINALIZER} && e.status.hash == ""
  }

  // ----- pieces of runs in it -----

  lemma MoveTwice(s: State, w: nat, pc: Pc, pc': Pc)
    ensures Move(Move(s, w, pc), w, pc') == Move(s, w, pc')
  {
    assert s.workers[w := pc][w := pc'] == s.workers[w := pc'];
  }

  /** Worker w can take up resource n, which leads to `job` for the Krakend of `x`. */
  ghost predicate CanStart(p: Play, x: Cast, s: State, w: nat, n: string, job: Job) {
    && s.hist != [] && w in p.crew && At(s, w).Idle? && (forall w' :: Key(At(s, w')) != Some(n))
    && AfterGet(p.c, s, n) == Fetched(job, x.k.name) && InPlace(x, Cur(s))
  }

  lemma ReadUpToKrakend(p: Play, x: Cast, s: State, w: nat, n: string, job: Job)
    requires PlayOk(p) && p.good(s) && CanStart(p, x, s, w, n, job)
    ensures p.good(Move(s, w, HaveKrakend(job, x.k)))
  {
    var p1, p2 := Fetched(job, x.k.name), HaveKrakend(job, x.k);
    Reach(p, s, Begin(w, n), Move(s, w, p1));
    MoveTwice(s, w, p1, p2);
    Reach(p, Move(s, w, p1), GetKrakend(w), Move(s, w, p2));
  }

  /** It reads the resource, its Krakend and the ConfigMap. */
  lemma ReadUpToConfigMap(p: Play, x: Cast, s: State, w: nat, n: string, job: Job)
    requires PlayOk(p) && p.good(s) && CanStart(p, x, s, w, n, job)
    ensures p.good(Move(s, w, HaveConfigMap(job, x.k, Cur(s).cms[Cm(x)], |s.hist| - 1)))
  {
    var p2, p3 := HaveKrakend(job, x.k), HaveConfigMap(job, x.k, Cur(s).cms[Cm(x)], |s.hist| - 1);
    ReadUpToKrakend(p, x, s, w, n, job);
    MoveTwice(s, w, p2, p3);
    Reach(p, Move(s, w, p2), GetConfigMap(w), Move(s, w, p3));
  }

  ghost function Listed(x: Cast, s: State, job: Job, items: seq<ApiEndpoints>, out: seq<GatewayEndpoint>): Pc
    requires s.hist != [] && Cm(x) in Cur(s).cms
  {
    HaveList(job, x.k, Cur(s).cms[Cm(x)], |s.hist| - 1, |s.hist| - 1, items, out)
  }

  lemma {:induction false} ListStep(p: Play, s: State, w: nat, pc: Pc, listed: seq<ApiEndpoints>, q: Pc)
    requires PlayOk(p) && s.hist != [] && w in p.crew && pc.HaveConfigMap? && p.good(Move(s, w, pc))
    requires Enumerates(Cur(s).api, listed) && AfterList(Move(s, w, pc), pc, listed) == q
    ensures p.good(Move(s, w, q))
  {
    MoveTwice(s, w, pc, q);
    Reach(p, Move(s, w, pc), ListEndpoints(w, listed), Move(s, w, q));
  }

  /** ... and goes on to list the namespace and compile what is live. */
  lemma {:induction false} ReadUpToList(p: Play, x: Cast, s: State, w: nat, n: string, job: Job,
                                        listed: seq<ApiEndpoints>, items: seq<ApiEndpoints>, out: seq<GatewayEndpoint>)
    requires PlayOk(p) && p.good(s) && CanStart(p, x, s, w, n, job)
    requires Enumerates(Cur(s).api, listed) && FilterLive(listed) == items && Compile(x.k, items) == Some(out)
    ensures p.good(Move(s, w, Listed(x, s, job, items, out)))
  {
    ReadUpToConfigMap(p, x, s, w, n, job);
    ListStep(p, s, w, HaveConfigMap(job, x.k, Cur(s).cms[Cm(x)], |s.hist| - 1), listed,
             Listed(x, s, job, items, out));
  }

  function SyncOf(p: Play, e: ApiEndpoints): Job {
    Sync(e.name, p.c.hash(e.spec))
  }

  lemma StartSync(p: Play, x: Cast, s: State, e: ApiEndpoints)
    requires ConfigOk(p.c) && s.hist != [] && e.name in Cur(s).api && Cur(s).api[e.name] == e
    requires !e.deleting && e.status.hash == "" && e.spec.krakend == x.k.name != ""
    ensures AfterGet(p.c, s, e.name) == Fetched(SyncOf(p, e), x.k.name)
  {
  }

  /** The position after a successful update. */
  function AfterWrite(s: State, job: Job, k: Krakend): Pc {
    match job
    case Deletion(e, readRev) => Cleared(e, readRev, Written(|s.log|))
    case Sync(name, hash) => Wrote(name, hash, k)
  }

  /** A successful update by worker w that changes the text. */
  ghost function Published(s: State, w: nat): State
    requires s.hist != [] && At(s, w).HaveList?
  {
    var pc := At(s, w);
    var n := CmName(pc.k.name);
    State(s.hist + [PutCm(Cur(s), n, Some(Partials(pc.out)), |s.hist|)],
          s.log + [Write(n, pc.k, pc.listRev, |s.hist|, pc.items, pc.out, true)],
          s.clock, s.workers[w := AfterWrite(s, pc.job, pc.k)], s.kworker)
  }

  lemma Publish(p: Play, s: State, w: nat)
    requires PlayOk(p) && p.good(s) && s.hist != [] && w in p.crew && At(s, w).HaveList? && GoesThrough(s, w)
    requires !Reads(p.c, Cur(s).cms[CmName(At(s, w).k.name)].data, At(s, w).out)
    ensures p.good(Published(s, w))
  {
    Reach(p, s, UpdateConfigMap(w), Published(s, w));
  }

  /** What the state looks like after that. */
  lemma PublishedContent(x: Cast, s: State, w: nat, pc: Pc)
    requires s.hist != [] && pc.HaveList? && pc.k == x.k
    ensures At(Move(s, w, pc), w) == pc
    ensures var s' := Published(Move(s, w, pc), w);
            && |s'.hist| == |s.hist| + 1
            && s'.log == s.log + [Write(Cm(x), x.k, pc.listRev, |s.hist|, pc.items, pc.out, true)]
            && s'.workers == s.workers[w := AfterWrite(s, pc.job, x.k)]
            && Cur(s') == PutCm(Cur(s), Cm(x), Some(Partials(pc.out)), |s.hist|)
  {
    MoveTwice(s, w, pc, AfterWrite(s, pc.job, x.k));
  }

  /** A worker that nobody disturbs publishes what it compiled. */
  lemma {:induction false} WorkAlone(p: Play, x: Cast, s: State, w: nat, n: string, job: Job, listed: seq<ApiEndpoints>,
                                     items: seq<ApiEndpoints>, out: seq<GatewayEndpoint>)
    returns (s': State)
    requires PlayOk(p) && p.good(s) && CanStart(p, x, s, w, n, job)
    requires Enumerates(Cur(s).api, listed) && FilterLive(listed) == items && Compile(x.k, items) == Some(out)
    requires !Reads(p.c, Cur(s).cms[Cm(x)].data, out)
    ensures p.good(s') && |s'.hist| == |s.hist| + 1
    ensures s'.log == s.log + [Write(Cm(x), x.k, |s.hist| - 1, |s.hist|, items, out, true)]
    ensures s'.workers == s.workers[w := AfterWrite(s, job, x.k)]
    ensures Cur(s') == PutCm(Cur(s), Cm(x), Some(Partials(out)), |s.hist|)
  {
    ReadUpToList(p, x, s, w, n, job, listed, items, out);
    s' := PublishListed(p, x, s, w, job, items, out);
  }

  lemma PublishListed(p: Play, x: Cast, s: State, w: nat, job: Job, items: seq<ApiEndpoints>, out: seq<GatewayEndpoint>)
    returns (s': State)
    requires PlayOk(p) && s.hist != [] && w in p.crew && Cm(x) in Cur(s).cms
    requires p.good(Move(s, w, Listed(x, s, job, items, out))) && !Reads(p.c, Cur(s).cms[Cm(x)].data, out)
    ensures p.good(s') && |s'.hist| == |s.hist| + 1
    ensures s'.log == s.log + [Write(Cm(x), x.k, |s.hist| - 1, |s.hist|, items, out, true)]
    ensures s'.workers == s.workers[w := AfterWrite(s, job, x.k)]
    ensures Cur(s') == PutCm(Cur(s), Cm(x), Some(Partials(out)), |s.hist|)
  {
    var pc := Listed(x, s, job, items, out);
    PublishedContent(x, s, w, pc);
    Publish(p, Move(s, w, pc), w);
    s' := Published(Move(s, w, pc), w);
  }

  function With(st: Store, e: ApiEndpoints): Store {
    st.(api := st.api[e.name := e])
  }

  /** After its write the worker claims the resource, then fails. */
  lemma ClaimStep(p: Play, x: Cast, s: State, w: nat, e: ApiEndpoints) returns (s': State, e': ApiEndpoints)
    requires PlayOk(p) && p.good(s) && s.hist != [] && w in p.crew
    requires At(s, w) == Wrote(e.name, p.c.hash(e.spec), x.k) && e.name in Cur(s).api && Cur(s).api[e.name] == e
    requires !e.deleting && e.finalizers == {} && Admitted(p.c.ns, Cur(s).krakends, Cur(s).api, Claim(e, x.k))
    ensures p.good(s') && |s'.hist| == |s.hist| + 1 && s'.log == s.log && s'.workers == s.workers[w := Idle]
    ensures e' == Claim(e, x.k).(version := |s.hist|) && Cur(s') == With(Cur(s), e')
  {
    var hash := p.c.hash(e.spec);
    Refetched(p, x, s, w, e);
    e' := Claim(e, x.k).(version := |s.hist|);
    var s1 := Move(s, w, Claiming(e.name, hash, e, x.k));
    var s2 := Move(Commit(s, With(Cur(s), e')), w, Claimed(e.name, hash));
    MoveTwice(Commit(s, With(Cur(s), e')), w, Claiming(e.name, hash, e, x.k), Claimed(e.name, hash));
    Reach(p, s1, UpdateEndpoints(w), s2);
    s' := Move(Commit(s, With(Cur(s), e')), w, Idle);
    MoveTwice(Commit(s, With(Cur(s), e')), w, Claimed(e.name, hash), Idle);
    Abort(p, s2, w);
  }

  lemma Refetched(p: Play, x: Cast, s: State, w: nat, e: ApiEndpoints)
    requires PlayOk(p) && p.good(s) && s.hist != [] && w in p.crew
    requires At(s, w) == Wrote(e.name, p.c.hash(e.spec), x.k) && e.name in Cur(s).api && Cur(s).api[e.name] == e
    requires e.finalizers == {}
    ensures p.good(Move(s, w, Claiming(e.name, p.c.hash(e.spec), e, x.k)))
  {
    Reach(p, s, Refetch(w), Move(s, w, Claiming(e.name, p.c.hash(e.spec), e, x.k)));
  }

  lemma Abort(p: Play, s: State, w: nat)
    requires PlayOk(p) && p.good(s) && s.hist != [] && w in p.crew
    ensures p.good(Move(s, w, Idle))
  {
    Reach(p, s, Fail(w), Move(s, w, Idle));
  }

  /** A user creates resource `n` without finalizers. */
  lemma Create(p: Play, s: State, n: string, spec: Spec) returns (s': State, e: ApiEndpoints)
    requires PlayOk(p) && p.good(s) && s.hist != [] && n !in Cur(s).api
    requires Admitted(p.c.ns, Cur(s).krakends, Cur(s).api, NewEndpoints(s, n, spec, {}, []))
    ensures p.good(s') && |s'.hist| == |s.hist| + 1 && s'.log == s.log && s'.workers == s.workers
    ensures s'.kworker == s.kworker
    ensures e == NewEndpoints(s, n, spec, {}, []) && Cur(s') == With(Cur(s), e)
  {
    e := NewEndpoints(s, n, spec, {}, []);
    s' := Commit(s, With(Cur(s), e));
    Reach(p, s, UserCreate(n, spec, {}, []), s');
  }

  /** A user changes the spec, which is checked only on a live resource. */
  lemma Edit(p: Play, s: State, e: ApiEndpoints, spec: Spec) returns (s': State, e': ApiEndpoints)
    requires PlayOk(p) && p.good(s) && s.hist != [] && e.name in Cur(s).api && Cur(s).api[e.name] == e
    requires e.finalizers != {} && Admitted(p.c.ns, Cur(s).krakends, Cur(s).api, e.(spec := spec))
    ensures p.good(s') && |s'.hist| == |s.hist| + 1 && s'.log == s.log && s'.workers == s.workers
    ensures e' == e.(spec := spec, version := |s.hist|) && Cur(s') == With(Cur(s), e')
  {
    e' := e.(spec := spec, version := |s.hist|);
    s' := Commit(s, With(Cur(s), e'));
    Reach(p, s, UserUpdate(e.name, spec, e.finalizers, e.owners), s');
  }

  /** A user deletes a resource that a finalizer keeps. */
  lemma Mark(p: Play, s: State, e: ApiEndpoints) returns (s': State, e': ApiEndpoints)
    requires PlayOk(p) && p.good(s) && s.hist != [] && e.name in Cur(s).api && Cur(s).api[e.name] == e
    requires e.finalizers != {}
    ensures p.good(s') && |s'.hist| == |s.hist| + 1 && s'.log == s.log && s'.workers == s.workers
    ensures e' == e.(deleting := true, version := |s.hist|) && Cur(s') == With(Cur(s), e')
  {
    e' := e.(deleting := true, version := |s.hist|);
    s' := Commit(s, With(Cur(s), e'));
    Reach(p, s, UserDelete(e.name), s');
  }

  /** A resource without finalizers is gone as soon as it is deleted. */
  lemma DeleteUnguarded(p: Play, s: State, n: string) returns (s': State)
    requires PlayOk(p) && p.good(s) && s.hist != []
    requires n in Cur(s).api && Cur(s).api[n].name == n && Cur(s).api[n].finalizers == {}
    ensures p.good(s') && s' == Commit(s, Cur(s).(api := Cur(s).api - {n}))
  {
    s' := Commit(s, Cur(s).(api := Cur(s).api - {n}));
    Reach(p, s, UserDelete(n), s');
  }

  /** A worker that finds the Krakend of a deleting resource absent is cleared at once. */
  lemma AbsentStep(p: Play, s: State, w: nat, e: ApiEndpoints) returns (s': State)
    requires PlayOk(p) && p.good(s) && s.hist != [] && w in p.crew && At(s, w).Idle?
    requires (forall w' :: Key(At(s, w')) != Some(e.name)) && e.name in Cur(s).api && Cur(s).api[e.name] == e
    requires e.deleting && KrakendName(p.c.ns, e.spec) !in Cur(s).krakends
    ensures p.good(s') && s' == Move(s, w, Cleared(e, |s.hist| - 1, KrakendAbsent(|s.hist| - 1)))
  {
    var q, q' := Fetched(Deletion(e, |s.hist| - 1), KrakendName(p.c.ns, e.spec)),
                 Cleared(e, |s.hist| - 1, KrakendAbsent(|s.hist| - 1));
    Reach(p, s, Begin(w, e.name), Move(s, w, q));
    MoveTwice(s, w, q, q');
    s' := Move(s, w, q');
    Reach(p, Move(s, w, q), GetKrakend(w), s');
  }

  /** A cleared worker takes the last finalizer off, and the resource is gone. */
  lemma ReleaseStep(p: Play, s: State, w: nat, e: ApiEndpoints) returns (s': State)
    requires PlayOk(p) && p.good(s) && s.hist != [] && w in p.crew && At(s, w).Cleared? && At(s, w).e == e
    requires e.name in Cur(s).api && Cur(s).api[e.name] == e && e.deleting && e.finalizers == {KRAKEND_FINALIZER}
    ensures p.good(s') && s' == DoRemoveFinalizer(s, w) && |s'.hist| == |s.hist| + 1 && s'.log == s.log
    ensures s'.workers == s.workers[w := Idle] && Cur(s') == Cur(s).(api := Cur(s).api - {e.name})
    ensures LosesFinalizer(Cur(s), Cur(s'), e.name)
  {
    assert e.finalizers - {KRAKEND_FINALIZER} == {};
    s' := DoRemoveFinalizer(s, w);
    Reach(p, s, RemoveFinalizer(w), s');
  }

  // ----- installing Krakends -----

  lemma KrakendPut(p: Play, s: State, k: Krakend) returns (s': State)
    requires PlayOk(p) && p.good(s) && s.hist != [] && k.name !in Cur(s).krakends && (p.single ==> k.name == p.x.k.name)
    ensures p.good(s') && s' == Commit(s, Cur(s).(krakends := Cur(s).krakends[k.name := k]))
  {
    s' := Commit(s, Cur(s).(krakends := Cur(s).krakends[k.name := k]));
    Reach(p, s, PutKrakend(k), s');
  }

  lemma RenderedBegun(p: Play, s: State, r: Rendered)
    requires PlayOk(p) && p.good(s) && s.hist != []
    ensures p.good(s.(kworker := KNext([r])))
  {
    Reach(p, s, KStop, s.(kworker := KIdle));
    Reach(p, s.(kworker := KIdle), KBegin([r]), s.(kworker := KNext([r])));
  }

  /** The Krakend worker creates the partials ConfigMap of `x` with the blank text. */
  lemma PartialsCreated(p: Play, x: Cast, s: State) returns (s': State)
    requires PlayOk(p) && p.good(s) && s.hist != [] && Cm(x) !in Cur(s).cms
    ensures p.good(s') && |s'.hist| == |s.hist| + 1 && s'.log == s.log && s'.workers == s.workers
    ensures Cur(s') == PutCm(Cur(s), Cm(x), Some(Template(BLANK)), |s.hist|)
  {
    var r := Rendered("ConfigMap", Cm(x), Some(BLANK));
    RenderedBegun(p, s, r);
    assert [r][1..] == [];
    Reach(p, s.(kworker := KNext([r])), KGet, s.(kworker := KCreating(r, [])));
    s' := Commit(s, PutCm(Cur(s), Cm(x), Some(Template(BLANK)), |s.hist|)).(kworker := KNext([]));
    Reach(p, s.(kworker := KCreating(r, [])), KCreate, s');
  }

  /** The Krakend of `x` and its ConfigMap are put in place. */
  lemma Install(p: Play, x: Cast, s: State) returns (s': State)
    requires PlayOk(p) && p.good(s) && s.hist != [] && Cm(x) !in Cur(s).cms
    requires x.k.name !in Cur(s).krakends && (p.single ==> x.k.name == p.x.k.name)
    ensures p.good(s') && |s'.hist| == |s.hist| + 2 && s'.log == s.log && s'.workers == s.workers
    ensures Cur(s') == Store(Cur(s).api, Cur(s).krakends[x.k.name := x.k],
                             Cur(s).cms[Cm(x) := ConfigMap(|s.hist| + 1, Some(Template(BLANK)))])
  {
    var s1 := KrakendPut(p, s, x.k);
    s' := PartialsCreated(p, x, s1);
  }

  lemma EmptyNamespace(p: Play) returns (s: State)
    requires PlayOk(p)
    ensures p.good(s) && s.hist == [Store(map[], map[], map[])] && s.log == [] && s.workers == map[]
  {
    s := State([Store(map[], map[], map[])], [], 0, map[], KIdle);
    assert Init(s);
  }

  /** One Krakend, nothing else. */
  lemma Installed(p: Play) returns (s: State)
    requires PlayOk(p)
    ensures p.good(s) && s.log == [] && s.workers == map[] && |s.hist| == 3
    ensures Cur(s) == Holding(p.x, map[], ConfigMap(2, Some(Template(BLANK))))
  {
    var s0 := EmptyNamespace(p);
    s := Install(p, p.x, s0);
    assert map[][p.x.k.name := p.x.k] == map[p.x.k.name := p.x.k];
  }

  function Holding(x: Cast, api: map<string, ApiEndpoints>, cm: ConfigMap): Store {
    Store(api, map[x.k.name := x.k], map[Cm(x) := cm])
  }

  lemma HoldingCm(x: Cast, api: map<string, ApiEndpoints>, cm: ConfigMap, data: Option<Data>, rev: nat)
    ensures PutCm(Holding(x, api, cm), Cm(x), data, rev) == Holding(x, api, ConfigMap(rev, data))
  {
    assert map[Cm(x) := cm][Cm(x) := ConfigMap(rev, data)] == map[Cm(x) := ConfigMap(rev, data)];
  }

  lemma HoldingOne(x: Cast, e: ApiEndpoints, e': ApiEndpoints, cm: ConfigMap)
    requires e'.name == e.name
    ensures With(Holding(x, map[], cm), e) == Holding(x, map[e.name := e], cm)
    ensures With(Holding(x, map[e.name := e], cm), e') == Holding(x, map[e.name := e'], cm)
    ensures map[e.name := e] - {e.name} == map[]
  {
    assert map[e.name := e][e.name := e'] == map[e.name := e'];
  }

  // ----- listings of the small namespace -----

  lemma {:induction false} FilterAllLive(items: seq<ApiEndpoints>)
    requires forall i :: 0 <= i < |items| ==> !items[i].deleting
    ensures FilterLive(items) == items
  {
    if items != [] {
      FilterAllLive(items[..|items| - 1]);
    }
  }

  /** A spec without endpoints whose provider the Krakend has. */
  ghost predicate Idles(k: Krakend, spec: Spec) {
    spec.endpoints == [] && spec.openEndpoints == [] && ProviderNamed(k, spec.auth.name)
  }

  lemma {:induction false} NoSources(k: Krakend, items: seq<ApiEndpoints>)
    requires forall i :: 0 <= i < |items| ==> Idles(k, items[i].spec)
    ensures Sources(items) == []
  {
    if items != [] {
      NoSources(k, items[..|items| - 1]);
    }
  }

  lemma {:induction false} NothingServed(k: Krakend, items: seq<ApiEndpoints>)
    requires forall i :: 0 <= i < |items| ==> !items[i].deleting && Idles(k, items[i].spec)
    ensures FilterLive(items) == items && Compile(k, items) == Some([])
  {
    FilterAllLive(items);
    CompileMeaning(k, items);
    NoSources(k, items);
  }

  /** Only the last item declares an endpoint, and only one. */
  lemma {:induction false} OneServed(k: Krakend, front: seq<ApiEndpoints>, e: ApiEndpoints)
    returns (out: seq<GatewayEndpoint>)
    requires !e.deleting && |e.spec.endpoints| == 1 && e.spec.openEndpoints == [] && ProviderNamed(k, e.spec.auth.name)
    requires forall i :: 0 <= i < |front| ==> !front[i].deleting && Idles(k, front[i].spec)
    ensures FilterLive(front + [e]) == front + [e] && Compile(k, front + [e]) == Some(out) && |out| == 1
  {
    var items := front + [e];
    FilterAllLive(items);
    CompileMeaning(k, items);
    out := Compile(k, items).value;
    assert items[..|items| - 1] == front;
    NoSources(k, front);
    assert Sources(items) == Sources(front) + SourcesOf(e.spec);
  }

  lemma OneListed(k: Krakend, e: ApiEndpoints) returns (out: seq<GatewayEndpoint>)
    requires !e.deleting && |e.spec.endpoints| == 1 && e.spec.openEndpoints == [] && ProviderNamed(k, e.spec.auth.name)
    ensures Enumerates(map[e.name := e], [e])
    ensures FilterLive([e]) == [e] && Compile(k, [e]) == Some(out) && |out| == 1
  {
    out := OneServed(k, [], e);
    assert [] + [e] == [e];
  }

  /** A single resource is admitted with a Krakend that has its provider. */
  lemma AloneAdmitted(ns: string, krakends: map<string, Krakend>, api: map<string, ApiEndpoints>, e: ApiEndpoints)
    requires api.Keys <= {e.name} && |e.spec.endpoints| <= 1 && e.spec.openEndpoints == []
    requires KrakendName(ns, e.spec) in krakends && ProviderNamed(krakends[KrakendName(ns, e.spec)], e.spec.auth.name)
    ensures Admitted(ns, krakends, api, e)
  {
    assert UniqueLive(api[e.name := e]);
  }

  lemma OneCreated(p: Play, eps: seq<Endpoint>) returns (s: State, e: ApiEndpoints)
    requires PlayOk(p) && |eps| <= 1
    ensures p.good(s) && s.log == [] && s.workers == map[] && |s.hist| == 4
    ensures Unsynced(e, p.x.y, SpecOf(p.x, eps)) && e.finalizers == {} && e.owners == []
    ensures Cur(s) == Holding(p.x, map[e.name := e], ConfigMap(2, Some(Template(BLANK))))
  {
    var s0 := Installed(p);
    AloneAdmitted(p.c.ns, Cur(s0).krakends, Cur(s0).api, NewEndpoints(s0, p.x.y, SpecOf(p.x, eps), {}, []));
    s, e := Create(p, s0, p.x.y, SpecOf(p.x, eps));
    HoldingOne(p.x, e, e, ConfigMap(2, Some(Template(BLANK))));
  }

  // ----- pairs of resources -----

  function Two(x: Cast, a: ApiEndpoints, b: ApiEndpoints): map<string, ApiEndpoints> {
    map[x.a := a, x.b := b]
  }

  /** Resource a of the pair, without endpoints, and b with at most one. */
  ghost predicate Pair(x: Cast, a: ApiEndpoints, b: ApiEndpoints) {
    && Unsynced(a, x.a, SpecOf(x, [])) && b.name == x.b
    && |b.spec.endpoints| <= 1 && b.spec.openEndpoints == [] && b.spec.auth.name == x.auth
  }

  lemma TwoUnique(x: Cast, a: ApiEndpoints, b: ApiEndpoints)
    requires CastOk(x) && Pair(x, a, b)
    ensures UniqueLive(Two(x, a, b))
  {
    assert Paths(a.spec) == [] && |Paths(b.spec)| <= 1;
  }

  lemma TwoEnumerated(x: Cast, a: ApiEndpoints, b: ApiEndpoints)
    requires CastOk(x) && Pair(x, a, b)
    ensures Enumerates(Two(x, a, b), [a, b])
  {
  }

  lemma TwoMaps(x: Cast, a: ApiEndpoints, b: ApiEndpoints, b': ApiEndpoints)
    requires CastOk(x) && a.name == x.a && b.name == x.b == b'.name
    ensures Two(x, a, b)[x.b := b'] == Two(x, a, b')
    ensures map[x.b := b][x.a := a] == Two(x, a, b) && map[x.a := a][x.b := b] == Two(x, a, b)
    ensures Two(x, a, b) - {x.b} == map[x.a := a]
  {
  }

  /** b may be given another form of the pair. */
  lemma PairAdmitted(ns: string, krakends: map<string, Krakend>, x: Cast, a: ApiEndpoints, b: ApiEndpoints,
                     b': ApiEndpoints)
    requires CastOk(x) && Pair(x, a, b) && Pair(x, a, b')
    requires KrakendName(ns, b'.spec) in krakends && ProviderNamed(krakends[KrakendName(ns, b'.spec)], x.auth)
    ensures Admitted(ns, krakends, Two(x, a, b), b')
  {
    TwoMaps(x, a, b, b');
    TwoUnique(x, a, b');
  }

  lemma BothServed(k: Krakend, x: Cast, a: ApiEndpoints, b: ApiEndpoints) returns (out: seq<GatewayEndpoint>)
    requires CastOk(x) && ProviderNamed(k, x.auth) && Pair(x, a, b) && !b.deleting && |b.spec.endpoints| == 1
    ensures FilterLive([a, b]) == [a, b] && Compile(k, [a, b]) == Some(out) && |out| == 1
  {
    out := OneServed(k, [a], b);
    assert [a] + [b] == [a, b];
  }

  lemma {:induction false} OnlyPlain(k: Krakend, x: Cast, a: ApiEndpoints, b: ApiEndpoints)
    requires CastOk(x) && ProviderNamed(k, x.auth) && Pair(x, a, b) && b.deleting
    ensures FilterLive([a, b]) == [a] && Compile(k, [a]) == Some([])
  {
    NothingServed(k, [a]);
    assert [a, b][..1] == [a];
  }
}
