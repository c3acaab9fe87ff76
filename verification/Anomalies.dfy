/** Where tempting guarantees about failures, snapshots and deletions end, and exactly where. */
module Anomalies {
  import opened ApiTypes
  import opened GatewayCompiler
  import opened Admission
  import opened Protocol
  import opened ProtocolInvariant
  import opened ProtocolTheorems
  import opened Totality
  import opened Comeback
  import opened OneWorker
  import opened Runs

  // ----- a worker compiles with the Krakend it read earlier -----

  function Extended(x: Cast, q: string): Krakend {
    x.k.(providers := x.k.providers + [AuthProvider(q, "", "", "")])
  }

  lemma ExtendedProvides(x: Cast, q: string)
    requires CastOk(x)
    ensures ProviderNamed(Extended(x, q), q)
    ensures forall a :: ProviderNamed(x.k, a) ==> ProviderNamed(Extended(x, q), a)
  {
    var k' := Extended(x, q);
    assert k'.providers[|x.k.providers|].name == q;
    forall a | ProviderNamed(x.k, a) ensures ProviderNamed(k', a) {
      var i :| 0 <= i < |x.k.providers| && x.k.providers[i].name == a;
      assert k'.providers[i].name == a;
    }
  }

  /** Worker 0 has read Krakend and ConfigMap; then the provider is added. */
  lemma ProviderAdded(p: Play, q: string) returns (s: State, y: ApiEndpoints)
    requires PlayOk(p) && 0 in p.crew
    ensures p.good(s) && s.hist != [] && At(s, 0).HaveConfigMap? && At(s, 0).k == p.x.k
    ensures Unsynced(y, p.x.y, SpecOf(p.x, [])) && Cur(s).api == map[p.x.y := y]
    ensures Cur(s).krakends == map[p.x.k.name := Extended(p.x, q)]
  {
    var x := p.x;
    var s0;
    s0, y := OneCreated(p, []);
    StartSync(p, x, s0, y);
    ReadUpToConfigMap(p, x, s0, 0, x.y, SyncOf(p, y));
    var s1 := Move(s0, 0, HaveConfigMap(SyncOf(p, y), x.k, Cur(s0).cms[Cm(x)], 3));
    var k := Extended(x, q);
    ExtendedProvides(x, q);
    s := Commit(s1, Cur(s1).(krakends := map[x.k.name := k]));
    assert Cur(s1).krakends[x.k.name := k] == map[x.k.name := k];
    Reach(p, s1, PutKrakend(k), s);
  }

  lemma BothIdle(ns: string, krakends: map<string, Krakend>, y: ApiEndpoints, z: ApiEndpoints)
    requires y.name != z.name && Paths(y.spec) == [] && Paths(z.spec) == []
    requires KrakendName(ns, z.spec) in krakends && ProviderNamed(krakends[KrakendName(ns, z.spec)], z.spec.auth.name)
    ensures Admitted(ns, krakends, map[y.name := y], z)
  {
    assert UniqueLive(map[y.name := y][z.name := z]);
  }

  lemma ProviderAddedMeanwhile(p: Play, q: string) returns (s: State, y: ApiEndpoints, z: ApiEndpoints)
    requires PlayOk(p) && 0 in p.crew
    ensures p.good(s) && s.hist != [] && At(s, 0).HaveConfigMap? && At(s, 0).k == p.x.k
    ensures Unsynced(y, p.x.y, SpecOf(p.x, [])) && Unsynced(z, p.x.b, SpecOf(p.x.(auth := q), []))
    ensures Cur(s).api == map[p.x.y := y, p.x.b := z] && Cur(s).krakends == map[p.x.k.name := Extended(p.x, q)]
  {
    var x := p.x;
    var s0;
    s0, y := ProviderAdded(p, q);
    ExtendedProvides(x, q);
    var spec := SpecOf(x.(auth := q), []);
    BothIdle(p.c.ns, Cur(s0).krakends, y, NewEndpoints(s0, x.b, spec, {}, []));
    s, z := Create(p, s0, x.b, spec);
  }

  lemma NowProvided(x: Cast, q: string, y: ApiEndpoints, z: ApiEndpoints)
    requires CastOk(x) && y.spec.auth.name == x.auth && z.spec.auth.name == q
    ensures var api := map[x.y := y, x.b := z];
            forall n :: LiveIn(api, n) ==> ProviderNamed(Extended(x, q), api[n].spec.auth.name)
  {
    ExtendedProvides(x, q);
  }

  lemma StaleListing(x: Cast, q: string, y: ApiEndpoints, z: ApiEndpoints)
    requires CastOk(x) && !ProviderNamed(x.k, q)
    requires y.name == x.y && z.name == x.b && !y.deleting && !z.deleting && z.spec.auth.name == q
    ensures Enumerates(map[x.y := y, x.b := z], [y, z])
    ensures Compile(x.k, FilterLive([y, z])).None?
  {
    var items := [y, z];
    FilterAllLive(items);
    assert items[1].spec.auth.name == q;
    CompileMeaning(x.k, items);
  }

  /** Worker 0 fails on the listing of `s`, although its Krakend, as it is now, provides for every live resource. */
  ghost predicate FailsUnprovoked(kname: string, s: State, listed: seq<ApiEndpoints>) {
    && s.hist != [] && At(s, 0).HaveConfigMap? && Enumerates(Cur(s).api, listed)
    && AfterList(s, At(s, 0), listed).Idle? && kname in Cur(s).krakends
    && forall n :: LiveIn(Cur(s).api, n) ==> ProviderNamed(Cur(s).krakends[kname], Cur(s).api[n].spec.auth.name)
  }

  lemma StaleState(p: Play, q: string) returns (s: State, listed: seq<ApiEndpoints>)
    requires PlayOk(p) && 0 in p.crew && !ProviderNamed(p.x.k, q)
    ensures p.good(s) && FailsUnprovoked(p.x.k.name, s, listed)
  {
    var y, z;
    s, y, z := ProviderAddedMeanwhile(p, q);
    listed := [y, z];
    NowProvided(p.x, q, y, z);
    StaleListing(p.x, q, y, z);
  }

  /**
    In a run with one worker and one Krakend whose providers only grow, a worker that read the Krakend
    before provider `q` was added fails on a resource that was admitted with `q`, although the Krakend as
    it is now provides for every live resource.
   */
  lemma StaleKrakendRejectsAdmitted(c: Config, x: Cast, q: string)
    returns (tr: seq<State>, evs: seq<Event>, listed: seq<ApiEndpoints>)
    requires ConfigOk(c) && CastOk(x) && !ProviderNamed(x.k, q)
    ensures OneKrakendRun(c, x.k.name, tr, evs) && Bounded(tr, 1)
    ensures FailsUnprovoked(x.k.name, tr[|tr| - 1], listed)
  {
    RunsOfOk(c, x, {0}, true);
    var s;
    s, listed := StaleState(RunsOf(c, x, {0}, true), q);
    tr, evs := OneWorkerRun(c, x.k.name, true, s);
  }


  // ----- a guarded resource is deleted while a slow worker still lists it -----

  lemma HoldingPair(x: Cast, a: ApiEndpoints, b: ApiEndpoints, b': ApiEndpoints, cm: ConfigMap)
    requires CastOk(x) && a.name == x.a && b.name == x.b == b'.name
    ensures With(Holding(x, map[x.a := a], cm), b) == Holding(x, Two(x, a, b), cm)
    ensures With(Holding(x, Two(x, a, b), cm), b') == Holding(x, Two(x, a, b'), cm)
  {
    TwoMaps(x, a, b, b');
  }

  lemma PairCreated(p: Play) returns (s: State, a: ApiEndpoints, b: ApiEndpoints)
    requires PlayOk(p)
    ensures p.good(s) && s.log == [] && s.workers == map[] && |s.hist| == 5 && Pair(p.x, a, b) && a.uid != b.uid
    ensures Unsynced(b, p.x.b, SpecOf(p.x, [])) && b.finalizers == {} && b.owners == []
    ensures Cur(s) == Holding(p.x, Two(p.x, a, b), ConfigMap(2, Some(Template(BLANK))))
  {
    var x := p.x;
    var s0 := Installed(p);
    AloneAdmitted(p.c.ns, Cur(s0).krakends, Cur(s0).api, NewEndpoints(s0, x.a, SpecOf(x, []), {}, []));
    var s1;
    s1, a := Create(p, s0, x.a, SpecOf(x, []));
    HoldingOne(x, a, a, ConfigMap(2, Some(Template(BLANK))));
    b := NewEndpoints(s1, x.b, SpecOf(x, []), {}, []);
    HoldingPair(x, a, b, b, ConfigMap(2, Some(Template(BLANK))));
    TwoMaps(x, a, b, b);
    TwoUnique(x, a, b);
    s, b := Create(p, s1, x.b, SpecOf(x, []));
  }

  /** Worker 1 publishes the empty configuration for b. */
  lemma EmptyPublished(p: Play) returns (s: State, a: ApiEndpoints, b: ApiEndpoints)
    requires PlayOk(p) && 1 in p.crew
    ensures p.good(s) && |s.log| == 1 && s.log[0].cm == Cm(p.x) && |s.hist| == 6 && Pair(p.x, a, b) && a.uid != b.uid
    ensures Unsynced(b, p.x.b, SpecOf(p.x, [])) && b.finalizers == {} && b.owners == []
    ensures s.workers == map[1 := Wrote(b.name, p.c.hash(b.spec), p.x.k)]
    ensures Cur(s) == Holding(p.x, Two(p.x, a, b), ConfigMap(5, Some(Partials([]))))
  {
    var x := p.x;
    var s0;
    s0, a, b := PairCreated(p);
    TwoEnumerated(x, a, b);
    NothingServed(x.k, [a, b]);
    StartSync(p, x, s0, b);
    s := WorkAlone(p, x, s0, 1, x.b, SyncOf(p, b), [a, b], [a, b], []);
    HoldingCm(x, Two(x, a, b), ConfigMap(2, Some(Template(BLANK))), Some(Partials([])), 5);
  }

  /** It claims b and fails; then a user gives b an endpoint. */
  lemma ClaimedAndServing(p: Play) returns (s: State, a: ApiEndpoints, b: ApiEndpoints)
    requires PlayOk(p) && 1 in p.crew
    ensures p.good(s) && |s.log| == 1 && s.log[0].cm == Cm(p.x) && |s.hist| == 8 && s.workers == map[1 := Idle]
    ensures Pair(p.x, a, b) && a.uid != b.uid && Claimant(b, p.x.b, SpecOf(p.x, [p.x.one])) && !b.deleting
    ensures Cur(s) == Holding(p.x, Two(p.x, a, b), ConfigMap(5, Some(Partials([]))))
  {
    var x, cm := p.x, ConfigMap(5, Some(Partials([])));
    var s0, b0, s1, b1;
    s0, a, b0 := EmptyPublished(p);
    PairAdmitted(p.c.ns, Cur(s0).krakends, x, a, b0, Claim(b0, x.k));
    s1, b1 := ClaimStep(p, x, s0, 1, b0);
    assert s1.workers == map[1 := Idle];
    HoldingPair(x, a, b0, b1, cm);
    PairAdmitted(p.c.ns, Cur(s1).krakends, x, a, b1, b1.(spec := SpecOf(x, [x.one])));
    s, b := Edit(p, s1, b1, SpecOf(x, [x.one]));
    HoldingPair(x, a, b1, b, cm);
  }

  /** Position of worker 0, for a, with a listing that has b in it. */
  ghost function Behind(p: Play, a: ApiEndpoints, b: ApiEndpoints, out: seq<GatewayEndpoint>): Pc {
    HaveList(SyncOf(p, a), p.x.k, ConfigMap(5, Some(Partials([]))), 7, 7, [a, b], out)
  }

  /** Worker 0 lists both. */
  lemma ListedBehind(p: Play) returns (s: State, a: ApiEndpoints, b: ApiEndpoints, out: seq<GatewayEndpoint>)
    requires PlayOk(p) && {0, 1} <= p.crew
    ensures p.good(s) && |s.log| == 1 && s.log[0].cm == Cm(p.x) && |s.hist| == 8 && |out| == 1
    ensures Pair(p.x, a, b) && a.uid != b.uid && Claimant(b, p.x.b, SpecOf(p.x, [p.x.one])) && !b.deleting
    ensures s.workers == map[0 := Behind(p, a, b, out), 1 := Idle]
    ensures Cur(s) == Holding(p.x, Two(p.x, a, b), ConfigMap(5, Some(Partials([]))))
  {
    var x := p.x;
    var s0;
    s0, a, b := ClaimedAndServing(p);
    out := BothServed(x.k, x, a, b);
    TwoEnumerated(x, a, b);
    StartSync(p, x, s0, a);
    ReadUpToList(p, x, s0, 0, x.a, SyncOf(p, a), [a, b], [a, b], out);
    s := Move(s0, 0, Behind(p, a, b, out));
    assert s.workers == map[0 := Behind(p, a, b, out), 1 := Idle];
  }

  /** The situation both runs start from: b, in `b'`, is marked for deletion while worker 0 still lists it. */
  ghost predicate Marked(p: Play, s: State, a: ApiEndpoints, b: ApiEndpoints, b': ApiEndpoints,
                         out: seq<GatewayEndpoint>) {
    && p.good(s) && |s.log| == 1 && s.log[0].cm == Cm(p.x) && |s.hist| == 9 && |out| == 1
    && Pair(p.x, a, b) && Pair(p.x, a, b') && a.uid != b.uid == b'.uid
    && Claimant(b', p.x.b, SpecOf(p.x, [p.x.one])) && b'.deleting
    && s.workers == map[0 := Behind(p, a, b, out), 1 := Idle]
    && Cur(s) == Holding(p.x, Two(p.x, a, b'), ConfigMap(5, Some(Partials([]))))
  }

  lemma MarkedReached(p: Play)
    returns (s: State, a: ApiEndpoints, b: ApiEndpoints, b': ApiEndpoints, out: seq<GatewayEndpoint>)
    requires PlayOk(p) && {0, 1} <= p.crew
    ensures Marked(p, s, a, b, b', out)
  {
    var s0;
    s0, a, b, out := ListedBehind(p);
    s, b' := Mark(p, s0, b);
    HoldingPair(p.x, a, b, b', ConfigMap(5, Some(Partials([]))));
  }

  /** Worker `w` is about to take the finalizer off resource `m`, successfully. */
  ghost predicate Releases(s: State, w: nat, m: string) {
    && s.hist != [] && At(s, w).Cleared?
    && LosesFinalizer(Cur(s), Cur(DoRemoveFinalizer(s, w)), m)
  }

  /** Worker 1 is cleared to release b', and worker 0 is still where it was. */
  ghost predicate Overtaking(p: Play, s: State, a: ApiEndpoints, b: ApiEndpoints, b': ApiEndpoints,
                             out: seq<GatewayEndpoint>) {
    && p.good(s) && s.hist != [] && Pair(p.x, a, b) && b.uid == b'.uid
    && Claimant(b', p.x.b, SpecOf(p.x, [p.x.one])) && b'.deleting && Cur(s).api == Two(p.x, a, b')
    && At(s, 1).Cleared? && At(s, 1).e == b' && At(s, 0) == Behind(p, a, b, out)
    && Cm(p.x) in Cur(s).cms && Cur(s).cms[Cm(p.x)].version == 5
  }

  /** After the release worker 0 still writes b back. */
  lemma SlowWorkerWins(p: Play, s: State, a: ApiEndpoints, b: ApiEndpoints, b': ApiEndpoints, out: seq<GatewayEndpoint>)
    requires PlayOk(p) && Overtaking(p, s, a, b, b', out) && 1 in p.crew
    ensures Releases(s, 1, p.x.b) && p.good(DoRemoveFinalizer(s, 1))
    ensures Threatens(DoRemoveFinalizer(s, 1), 0, Cm(p.x), b'.uid)
  {
    var s' := ReleaseStep(p, s, 1, b');
    assert [a, b][1] == b;
    assert b in At(s, 0).items;
    assert Threatens(s, 0, Cm(p.x), b'.uid);
    RemovalKeepsThreats(s, 1, 0, Cm(p.x), b'.uid);
  }

  lemma SlowWorkerComesBack(c: Config, x: Cast, single: bool, s: State,
                            a: ApiEndpoints, b: ApiEndpoints, b': ApiEndpoints, out: seq<GatewayEndpoint>)
    requires ConfigOk(c) && CastOk(x) && Overtaking(RunsOf(c, x, {0, 1}, single), s, a, b, b', out)
    ensures CrewReached(c, x.k.name, {0, 1}, single, s) && Releases(s, 1, x.b)
    ensures x.b in Cur(s).api && ComesBack(c, DoRemoveFinalizer(s, 1), Cm(x), Cur(s).api[x.b].uid)
  {
    RunsOfOk(c, x, {0, 1}, single);
    SlowWorkerWins(RunsOf(c, x, {0, 1}, single), s, a, b, b', out);
    var s' := DoRemoveFinalizer(s, 1);
    CrewIsReached(c, x.k.name, {0, 1}, single, s');
    ReachedInv(c, s');
    ThreatComesTrue(c, s', 0, Cm(x), b'.uid);
  }

  // (a) the Krakend is gone when the deletion is handled

  lemma KrakendGone(p: Play, s: State) returns (s': State)
    requires PlayOk(p) && !p.single && p.good(s) && s.hist != []
    ensures p.good(s') && s' == Commit(s, Cur(s).(krakends := Cur(s).krakends - {p.x.k.name}))
  {
    s' := Commit(s, Cur(s).(krakends := Cur(s).krakends - {p.x.k.name}));
    Reach(p, s, DeleteKrakend(p.x.k.name), s');
  }

  lemma AbsentCleared(p: Play)
    returns (s: State, a: ApiEndpoints, b: ApiEndpoints, b': ApiEndpoints, out: seq<GatewayEndpoint>)
    requires PlayOk(p) && !p.single && {0, 1} <= p.crew
    ensures Overtaking(p, s, a, b, b', out) && At(s, 1).why.KrakendAbsent?
  {
    var s0;
    s0, a, b, b', out := MarkedReached(p);
    var s1 := KrakendGone(p, s0);
    s := AbsentStep(p, s1, 1, b');
  }

  /**
    Whatever the version rule: when the Krakend is deleted before the deletion of a guarded resource is
    handled, no ConfigMap is rewritten, and a second worker writes the resource back after its release.
   */
  lemma AbsentKrakendComeback(c: Config, x: Cast) returns (s: State)
    requires ConfigOk(c) && CastOk(x)
    ensures CrewReached(c, x.k.name, {0, 1}, false, s) && Releases(s, 1, x.b) && At(s, 1).why.KrakendAbsent?
    ensures x.b in Cur(s).api && ComesBack(c, DoRemoveFinalizer(s, 1), Cm(x), Cur(s).api[x.b].uid)
  {
    RunsOfOk(c, x, {0, 1}, false);
    var a, b, b', out;
    s, a, b, b', out := AbsentCleared(RunsOf(c, x, {0, 1}, false));
    SlowWorkerComesBack(c, x, false, s, a, b, b', out);
  }

  // (b) the rewrite changes nothing and keeps the version

  /** Worker 1 lists the namespace for the deletion of b'. */
  lemma DeletionListed(p: Play, s: State, a: ApiEndpoints, b: ApiEndpoints, b': ApiEndpoints, out: seq<GatewayEndpoint>)
    requires PlayOk(p) && {0, 1} <= p.crew && Marked(p, s, a, b, b', out)
    ensures p.good(Move(s, 1, Listed(p.x, s, Deletion(b', 8), [a], [])))
  {
    OnlyPlain(p.x.k, p.x, a, b');
    TwoEnumerated(p.x, a, b');
    ReadUpToList(p, p.x, s, 1, p.x.b, Deletion(b', 8), [a, b'], [a], []);
  }

  /** Its update changes nothing and keeps the version. */
  lemma UnchangedCleared(p: Play, s: State, a: ApiEndpoints, b: ApiEndpoints, b': ApiEndpoints,
                         out: seq<GatewayEndpoint>)
    returns (s': State)
    requires PlayOk(p) && {0, 1} <= p.crew && Marked(p, s, a, b, b', out) && !p.c.everyWriteCounts
    ensures Overtaking(p, s', a, b, b', out) && At(s', 1).why.Written? && s'.hist == s.hist
    ensures s'.log == s.log + [Write(Cm(p.x), p.x.k, 8, 8, [a], [], false)]
  {
    DeletionListed(p, s, a, b, b', out);
    var s1 := Move(s, 1, Listed(p.x, s, Deletion(b', 8), [a], []));
    s' := Move(s1, 1, Cleared(b', 8, Written(1))).(log := s.log + [Write(Cm(p.x), p.x.k, 8, 8, [a], [], false)]);
    Reach(p, s1, UpdateConfigMap(1), s');
  }

  /**
    If an update that changes nothing keeps the version, a second worker writes a guarded resource back
    after the rewrite that cleared it and after its release, also with one lasting Krakend.
   */
  lemma UnchangedRewriteComeback(c: Config, x: Cast) returns (s: State)
    requires ConfigOk(c) && CastOk(x) && !c.everyWriteCounts
    ensures CrewReached(c, x.k.name, {0, 1}, true, s) && Releases(s, 1, x.b) && At(s, 1).why.Written?
    ensures x.b in Cur(s).api && Cm(x) == CmName(KrakendName(c.ns, Cur(s).api[x.b].spec))
    ensures ComesBack(c, DoRemoveFinalizer(s, 1), Cm(x), Cur(s).api[x.b].uid)
  {
    RunsOfOk(c, x, {0, 1}, true);
    var p := RunsOf(c, x, {0, 1}, true);
    var s0, a, b, b', out := MarkedReached(p);
    s := UnchangedCleared(p, s0, a, b, b', out);
    SlowWorkerComesBack(c, x, true, s, a, b, b', out);
  }

  /** Entry `j` lists identity `u`, which was dead at the listing of entry `i` of the same ConfigMap. */
  ghost predicate ComebackAt(s: State, i: nat, j: nat, u: nat) {
    && i <= j < |s.log| && s.log[i].cm == s.log[j].cm && u <= s.log[i].listRev < |s.hist|
    && Dead(s.hist[s.log[i].listRev], u) && !Omits(s.log[j], u)
  }

  lemma PublishedComeback(p: Play, s0: State, s: State, a: ApiEndpoints, b: ApiEndpoints, b': ApiEndpoints,
                          out: seq<GatewayEndpoint>)
    requires CastOk(p.x) && Marked(p, s0, a, b, b', out) && s.hist == s0.hist && At(s, 0) == At(s0, 0) && b.uid <= 8
    requires s.log == s0.log + [Write(Cm(p.x), p.x.k, 8, 8, [a], [], false)]
    ensures var s' := Published(s, 0);
            && ComebackAt(s', 1, 2, b.uid) && s'.log[1].cm == s'.log[2].cm
            && s'.log[1].listRev == 8 && s'.log[2].listRev == 7
  {
    var s' := Published(s, 0);
    assert s'.log[1] == s.log[1] && s'.log[2].items == [a, b];
    assert [a, b][1] == b;
    assert b in s'.log[2].items;
    assert s'.hist[8] == Cur(s0);
  }

  lemma OlderListingWins(p: Play)
    returns (s0: State, s: State, a: ApiEndpoints, b: ApiEndpoints, b': ApiEndpoints, out: seq<GatewayEndpoint>)
    requires PlayOk(p) && {0, 1} <= p.crew && !p.c.everyWriteCounts
    ensures Marked(p, s0, a, b, b', out) && s.hist == s0.hist && At(s, 0) == At(s0, 0) && p.good(Published(s, 0))
    ensures s.log == s0.log + [Write(Cm(p.x), p.x.k, 8, 8, [a], [], false)]
  {
    s0, a, b, b', out := MarkedReached(p);
    s := UnchangedCleared(p, s0, a, b, b', out);
    Publish(p, s, 0);
  }

  /** Entry 2 lists b, which was deleting at the listing of entry 1, which is younger. */
  lemma CameBack(c: Config, x: Cast) returns (s: State, u: nat)
    requires ConfigOk(c) && CastOk(x) && !c.everyWriteCounts
    ensures CrewReached(c, x.k.name, {0, 1}, true, s) && ComebackAt(s, 1, 2, u)
    ensures s.log[1].cm == s.log[2].cm && s.log[1].listRev == 8 && s.log[2].listRev == 7
  {
    RunsOfOk(c, x, {0, 1}, true);
    var p := RunsOf(c, x, {0, 1}, true);
    var s0, s1, a, b, b', out := OlderListingWins(p);
    s, u := Published(s1, 0), b.uid;
    CrewIsReached(c, x.k.name, {0, 1}, true, s0);
    IdentityBound(c, s0, x.b);
    PublishedComeback(p, s0, s1, a, b, b', out);
  }

  lemma IdentityBound(c: Config, s: State, m: string)
    requires Reached(c, s) && s.hist != [] && m in Cur(s).api
    ensures Cur(s).api[m].uid < |s.hist|
  {
    ReachedInv(c, s);
    assert StoreOk(s.hist, |s.hist| - 1);
  }

  // ----- exactly when: the version rule -----

  /** In `s`, a guarded resource that is released because its ConfigMap was rewritten stays out of it for good. */
  ghost predicate ReleaseIsFinal(c: Config, s: State) {
    forall w: nat, m :: Releases(s, w, m) && At(s, w).why.Written? ==>
      !ComesBack(c, DoRemoveFinalizer(s, w), CmName(KrakendName(c.ns, Cur(s).api[m].spec)), Cur(s).api[m].uid)
  }

  lemma ReachedReleaseIsFinal(c: Config, s: State, w: nat, m: string)
    requires Reached(c, s) && c.everyWriteCounts && Releases(s, w, m) && At(s, w).why.Written?
    ensures !ComesBack(c, DoRemoveFinalizer(s, w), CmName(KrakendName(c.ns, Cur(s).api[m].spec)), Cur(s).api[m].uid)
  {
    var tr, evs :| Run(c, tr, evs) && tr[|tr| - 1] == s;
    var i, ev := |tr| - 1, RemoveFinalizer(w);
    Extend(c, tr, evs, ev);
    var tr', evs' := tr + [Apply(c, s, ev)], evs + [ev];
    var n := CmName(KrakendName(c.ns, Cur(s).api[m].spec));
    assert tr'[i] == s && tr'[i + 1] == DoRemoveFinalizer(s, w) && evs'[i] == ev;
    DeletionIsFinal(c, tr', evs', i, m, n);
    WrittenIsOwn(c, s, w, m);
  }

  lemma WrittenIsOwn(c: Config, s: State, w: nat, m: string)
    requires Reached(c, s) && c.everyWriteCounts && Releases(s, w, m) && At(s, w).why.Written?
    ensures ClearedByOwnWrite(c, s, Cur(s).api[m], CmName(KrakendName(c.ns, Cur(s).api[m].spec)))
  {
    ReachedInv(c, s);
    var pc := At(s, w);
    assert WorkerOk(c, s, pc);
    RemovalIsOwn(c, s, w, m);
    SnapshotCurrent(c, s, pc.e);
    assert 0 <= pc.readRev < |s.hist|;
    assert s.log[pc.why.index].cm == CmName(KrakendName(c.ns, pc.e.spec));
  }

  /**
    Releases after a rewrite are final in every reachable state exactly when every update, also one that
    changes nothing, gets a resource version of its own.
   */
  lemma ReleaseIsFinalIffEveryWriteCounts(c: Config)
    requires ConfigOk(c)
    ensures c.everyWriteCounts <==> forall s :: Reached(c, s) ==> ReleaseIsFinal(c, s)
  {
    if c.everyWriteCounts {
      forall s | Reached(c, s) ensures ReleaseIsFinal(c, s) {
        forall w: nat, m | Releases(s, w, m) && At(s, w).why.Written?
          ensures !ComesBack(c, DoRemoveFinalizer(s, w), CmName(KrakendName(c.ns, Cur(s).api[m].spec)),
                             Cur(s).api[m].uid)
        {
          ReachedReleaseIsFinal(c, s, w, m);
        }
      }
    } else {
      var x := SomeCast();
      var s := UnchangedRewriteComeback(c, x);
      CrewIsReached(c, x.k.name, {0, 1}, true, s);
      assert !ReleaseIsFinal(c, s);
    }
  }

  /** No write of `s` brings back what an earlier write to the same ConfigMap found gone. */
  ghost predicate NoComeback(s: State) {
    forall i: nat, j: nat, u: nat :: !ComebackAt(s, i, j, u)
  }

  /**
    What a write to a ConfigMap found gone stays out of the later writes to it, in every reachable state,
    exactly when every update gets a resource version of its own.
   */
  lemma NoComebackIffEveryWriteCounts(c: Config)
    requires ConfigOk(c)
    ensures c.everyWriteCounts <==> forall s :: Reached(c, s) ==> NoComeback(s)
  {
    if c.everyWriteCounts {
      forall s | Reached(c, s) ensures NoComeback(s) {
        ReachedNoComeback(c, s);
      }
    } else {
      var x := SomeCast();
      var s, u := CameBack(c, x);
      CrewIsReached(c, x.k.name, {0, 1}, true, s);
    }
  }

  lemma ReachedNoComeback(c: Config, s: State)
    requires Reached(c, s) && c.everyWriteCounts
    ensures NoComeback(s)
  {
    var tr, evs :| Run(c, tr, evs) && tr[|tr| - 1] == s;
    forall i: nat, j: nat, u: nat ensures !ComebackAt(s, i, j, u) {
      if ComebackAt(s, i, j, u) {
        NothingComesBack(c, tr, evs, |tr| - 1, i, j, u);
      }
    }
  }

  // ----- exactly when: the number of busy workers -----

  /** Later updates of a ConfigMap use listings that are no older. */
  ghost predicate Monotone(s: State) {
    forall i, j :: 0 <= i < j < |s.log| && s.log[i].cm == s.log[j].cm ==> s.log[i].listRev <= s.log[j].listRev
  }

  /** Over all reachable states, whoever is busy, only the version rule decides. */
  lemma MonotoneIffEveryWriteCounts(c: Config)
    requires ConfigOk(c)
    ensures c.everyWriteCounts <==> forall s :: Reached(c, s) ==> Monotone(s)
  {
    if c.everyWriteCounts {
      forall s | Reached(c, s) ensures Monotone(s) {
        var tr, evs :| Run(c, tr, evs) && tr[|tr| - 1] == s;
        forall i, j | 0 <= i < j < |s.log| && s.log[i].cm == s.log[j].cm ensures s.log[i].listRev <= s.log[j].listRev {
          MonotoneSnapshots(c, tr, evs, |tr| - 1, i, j);
        }
      }
    } else {
      var x := SomeCast();
      var s, u := CameBack(c, x);
      CrewIsReached(c, x.k.name, {0, 1}, true, s);
      assert !Monotone(s);
    }
  }

  ghost predicate AlwaysMonotone(c: Config, bound: nat) {
    forall tr, evs :: Run(c, tr, evs) && Bounded(tr, bound) ==> Monotone(tr[|tr| - 1])
  }

  /**
    Snapshots are monotone in every run with at most `bound` busy workers exactly when that is at most
    one, or every update gets a version of its own.
   */
  lemma MonotoneIffOneWorkerOrEveryWriteCounts(c: Config, bound: nat)
    requires ConfigOk(c)
    ensures AlwaysMonotone(c, bound) <==> bound <= 1 || c.everyWriteCounts
  {
    if bound <= 1 || c.everyWriteCounts {
      forall tr, evs | Run(c, tr, evs) && Bounded(tr, bound) ensures Monotone(tr[|tr| - 1]) {
        BoundedIsMonotone(c, tr, evs, bound);
      }
    } else {
      var x := SomeCast();
      var s, u := CameBack(c, x);
      var tr, evs :| CrewRun(c, x.k.name, {0, 1}, true, tr, evs) && tr[|tr| - 1] == s;
      CrewBounds({0, 1}, tr, bound);
      assert Run(c, tr, evs) && Bounded(tr, bound) && !Monotone(tr[|tr| - 1]);
    }
  }

  lemma BoundedIsMonotone(c: Config, tr: seq<State>, evs: seq<Event>, bound: nat)
    requires Run(c, tr, evs) && Bounded(tr, bound) && (bound <= 1 || c.everyWriteCounts)
    ensures Monotone(tr[|tr| - 1])
  {
    var t, log := |tr| - 1, tr[|tr| - 1].log;
    forall i, j | 0 <= i < j < |log| && log[i].cm == log[j].cm ensures log[i].listRev <= log[j].listRev {
      if c.everyWriteCounts {
        MonotoneSnapshots(c, tr, evs, t, i, j);
      } else {
        assert Bounded(tr, 1);
        OneWorkerMonotone(c, tr, evs, t, i, j);
      }
    }
  }

  ghost predicate AlwaysFinal(c: Config, bound: nat) {
    forall tr, evs :: Run(c, tr, evs) && Bounded(tr, bound) ==> ReleasesFinal(tr)
  }

  /** The release and the slow worker's write, appended to the run that leads there. */
  lemma ComebackRun(c: Config, x: Cast) returns (tr: seq<State>, evs: seq<Event>)
    requires ConfigOk(c) && CastOk(x)
    ensures Run(c, tr, evs) && CrewOnly({0, 1}, tr) && !ReleasesFinal(tr)
  {
    RunsOfOk(c, x, {0, 1}, false);
    var p := RunsOf(c, x, {0, 1}, false);
    var s, a, b, b', out := AbsentCleared(p);
    SlowWorkerWins(p, s, a, b, b', out);
    var tr0, evs0 :| CrewRun(c, x.k.name, {0, 1}, false, tr0, evs0) && tr0[|tr0| - 1] == s;
    tr, evs := ReleaseAndWrite(c, x.k.name, tr0, evs0, 1, 0, x.b, Cm(x));
  }

  lemma ReleaseAndWrite(c: Config, kname: string, tr: seq<State>, evs: seq<Event>, v: nat, w: nat, m: string, n: string)
    returns (tr': seq<State>, evs': seq<Event>)
    requires CrewRun(c, kname, {0, 1}, false, tr, evs) && v in {0, 1} && w in {0, 1}
    requires Releases(tr[|tr| - 1], v, m) && m in Cur(tr[|tr| - 1]).api
    requires Threatens(DoRemoveFinalizer(tr[|tr| - 1], v), w, n, Cur(tr[|tr| - 1]).api[m].uid)
    ensures Run(c, tr', evs') && CrewOnly({0, 1}, tr') && !ReleasesFinal(tr')
  {
    var s := tr[|tr| - 1];
    var s1 := DoRemoveFinalizer(s, v);
    ExtendCrew(c, kname, {0, 1}, false, tr, evs, RemoveFinalizer(v));
    tr', evs' := WriteAppended(c, kname, tr + [s1], evs + [RemoveFinalizer(v)], w, n, Cur(s).api[m].uid);
    NotFinal(tr', |tr| - 1, m);
  }

  lemma WriteAppended(c: Config, kname: string, tr: seq<State>, evs: seq<Event>, w: nat, n: string, u: nat)
    returns (tr': seq<State>, evs': seq<Event>)
    requires CrewRun(c, kname, {0, 1}, false, tr, evs) && w in {0, 1}
    requires tr[|tr| - 1].hist != [] && Threatens(tr[|tr| - 1], w, n, u)
    ensures Run(c, tr', evs') && CrewOnly({0, 1}, tr') && |tr'| == |tr| + 1 && tr'[..|tr|] == tr
    ensures !OmittedAfter(tr'[|tr|].log, |tr[|tr| - 1].log|, u)
  {
    var s := tr[|tr| - 1];
    ExtendCrew(c, kname, {0, 1}, false, tr, evs, UpdateConfigMap(w));
    tr', evs' := tr + [DoUpdateConfigMap(c, s, w)], evs + [UpdateConfigMap(w)];
    RunKeepsInv(c, tr, evs, |tr| - 1);
    ThreatIsWritten(c, s, w, n, u);
  }

  lemma NotFinal(tr: seq<State>, i: nat, m: string)
    requires i + 3 == |tr| && tr[i].hist != [] && tr[i + 1].hist != []
    requires LosesFinalizer(Cur(tr[i]), Cur(tr[i + 1]), m)
    requires !OmittedAfter(tr[i + 2].log, |tr[i + 1].log|, Cur(tr[i]).api[m].uid)
    ensures !ReleasesFinal(tr)
  {
    assert Released(tr, i, m, Cur(tr[i]).api[m].uid);
  }

  /**
    Whatever the version rule, releases are final in every run with at most `bound` busy workers exactly
    when that is at most one.
   */
  lemma FinalIffOneWorker(c: Config, bound: nat)
    requires ConfigOk(c)
    ensures AlwaysFinal(c, bound) <==> bound <= 1
  {
    if bound <= 1 {
      forall tr, evs | Run(c, tr, evs) && Bounded(tr, bound) ensures ReleasesFinal(tr) {
        assert Bounded(tr, 1);
        OneWorkerFinal(c, tr, evs);
      }
    } else {
      var x := SomeCast();
      var tr, evs := ComebackRun(c, x);
      CrewBounds({0, 1}, tr, bound);
      assert Run(c, tr, evs) && Bounded(tr, bound) && !ReleasesFinal(tr);
    }
  }
}
