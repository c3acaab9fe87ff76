/** Runs with one worker after which endpoints of a resource that has left are still served. */
module StrandedRuns {
  import opened ApiTypes
  import opened GatewayCompiler
  import opened Protocol
  import opened ProtocolTheorems
  import opened Totality
  import opened Comeback
  import opened OneWorker
  import opened Runs

  // ----- one resource, published -----

  lemma OneTakenUp(p: Play) returns (s: State, y: ApiEndpoints, out: seq<GatewayEndpoint>)
    requires PlayOk(p) && 0 in p.crew
    ensures s.log == [] && s.workers == map[] && |s.hist| == 4 && |out| == 1
    ensures Unsynced(y, p.x.y, SpecOf(p.x, [p.x.one])) && y.finalizers == {}
    ensures Cur(s) == Holding(p.x, map[y.name := y], ConfigMap(2, Some(Template(BLANK))))
    ensures p.good(Move(s, 0, Listed(p.x, s, SyncOf(p, y), [y], out)))
  {
    s, y := OneCreated(p, [p.x.one]);
    out := OneListed(p.x.k, y);
    StartSync(p, p.x, s, y);
    ReadUpToList(p, p.x, s, 0, y.name, SyncOf(p, y), [y], [y], out);
  }

  /** Worker 0 publishes it and has yet to claim it. */
  lemma OnePublished(p: Play) returns (s: State, y: ApiEndpoints, out: seq<GatewayEndpoint>)
    requires PlayOk(p) && 0 in p.crew
    ensures p.good(s) && |s.hist| == 5 && |out| == 1 && Unsynced(y, p.x.y, SpecOf(p.x, [p.x.one])) && y.finalizers == {}
    ensures s.workers == map[0 := Wrote(y.name, p.c.hash(y.spec), p.x.k)] && |s.log| == 1 && s.log[0].cm == Cm(p.x)
    ensures s.log[0].items == [y]
    ensures Cur(s) == Holding(p.x, map[y.name := y], ConfigMap(4, Some(Partials(out))))
  {
    var s0;
    s0, y, out := OneTakenUp(p);
    s := PublishListed(p, p.x, s0, 0, SyncOf(p, y), [y], out);
    HoldingCm(p.x, map[y.name := y], ConfigMap(2, Some(Template(BLANK))), Some(Partials(out)), 4);
  }

  // ----- the ConfigMap is written before the finalizer is added -----

  /**
    A resource that is deleted after the ConfigMap was written and before the finalizer was added
    leaves at once, and its endpoint stays behind: no resource is left, one endpoint is served.  One
    worker and one lasting Krakend are enough.
   */
  lemma UnguardedDeletionLeavesEndpoints(c: Config, x: Cast)
    returns (tr: seq<State>, evs: seq<Event>, out: seq<GatewayEndpoint>)
    requires ConfigOk(c) && CastOk(x)
    ensures OneKrakendRun(c, x.k.name, tr, evs) && Bounded(tr, 1) && tr[|tr| - 1].hist != [] && |out| == 1
    ensures Cur(tr[|tr| - 1]) == Holding(x, map[], ConfigMap(4, Some(Partials(out))))
  {
    RunsOfOk(c, x, {0}, true);
    var p := RunsOf(c, x, {0}, true);
    var s0, y;
    s0, y, out := OnePublished(p);
    var s := DeleteUnguarded(p, s0, x.y);
    HoldingOne(x, y, y, ConfigMap(4, Some(Partials(out))));
    tr, evs := OneWorkerRun(c, x.k.name, true, s);
  }

  // ----- a deleting resource may be edited unchecked -----

  lemma OneClaimed(p: Play) returns (s: State, y: ApiEndpoints, out: seq<GatewayEndpoint>)
    requires PlayOk(p) && 0 in p.crew
    ensures p.good(s) && |s.hist| == 6 && |out| == 1 && Claimant(y, p.x.y, SpecOf(p.x, [p.x.one])) && !y.deleting
    ensures s.workers == map[0 := Idle] && |s.log| == 1 && s.log[0].cm == Cm(p.x)
    ensures exists e :: e in s.log[0].items && e.uid == y.uid
    ensures Cur(s) == Holding(p.x, map[y.name := y], ConfigMap(4, Some(Partials(out))))
  {
    var s0, y0;
    s0, y0, out := OnePublished(p);
    AloneAdmitted(p.c.ns, Cur(s0).krakends, Cur(s0).api, Claim(y0, p.x.k));
    s, y := ClaimStep(p, p.x, s0, 0, y0);
    HoldingOne(p.x, y0, y, ConfigMap(4, Some(Partials(out))));
    assert s.workers == map[0 := Idle];
    assert s.log[0].items[0] == y0;
  }

  /** The spec of the resource with a Krakend that does not exist. */
  function Elsewhere(x: Cast): Spec {
    SpecOf(x, [x.one]).(krakend := x.k.name + "2")
  }

  lemma EditedWhileDeleting(p: Play) returns (s: State, y: ApiEndpoints, out: seq<GatewayEndpoint>)
    requires PlayOk(p) && 0 in p.crew
    ensures p.good(s) && s.hist != [] && |out| == 1 && Claimant(y, p.x.y, Elsewhere(p.x)) && y.deleting
    ensures s.workers == map[0 := Idle] && |s.log| == 1 && s.log[0].cm == Cm(p.x)
    ensures exists e :: e in s.log[0].items && e.uid == y.uid
    ensures Cur(s) == Holding(p.x, map[y.name := y], ConfigMap(4, Some(Partials(out))))
  {
    var s0, y0, s1, y1;
    s0, y0, out := OneClaimed(p);
    s1, y1 := Mark(p, s0, y0);
    HoldingOne(p.x, y0, y1, ConfigMap(4, Some(Partials(out))));
    s, y := Edit(p, s1, y1, Elsewhere(p.x));
    HoldingOne(p.x, y1, y, ConfigMap(4, Some(Partials(out))));
  }

  /** Identity `u` was released and left, and the last write to the ConfigMap of `x` still lists it. */
  ghost predicate Strands(x: Cast, s: State, u: nat) {
    && s.hist != [] && EverHeld(s.hist, u) && Gone(Cur(s), u)
    && exists j: nat :: LastWrite(s.log, Cm(x), j) && !Omits(s.log[j], u)
  }

  lemma HeldInHistory(hist: seq<Store>, r: nat, m: string)
    requires r < |hist| && m in hist[r].api && KRAKEND_FINALIZER in hist[r].api[m].finalizers
    ensures EverHeld(hist, hist[r].api[m].uid)
  {
    assert HeldBy(hist[r], hist[r].api[m].uid);
  }

  lemma ReleasedElsewhere(p: Play) returns (s: State, u: nat, out: seq<GatewayEndpoint>)
    requires PlayOk(p) && 0 in p.crew
    ensures p.good(s) && |out| == 1 && Strands(p.x, s, u)
    ensures Cur(s) == Holding(p.x, map[], ConfigMap(4, Some(Partials(out))))
  {
    var s0, y;
    s0, y, out := EditedWhileDeleting(p);
    assert p.x.k.name + "2" != p.x.k.name && p.x.k.name + "2" != "";
    var s1 := AbsentStep(p, s0, 0, y);
    s := ReleaseStep(p, s1, 0, y);
    u := y.uid;
    HoldingOne(p.x, y, y, ConfigMap(4, Some(Partials(out))));
    assert s.hist[|s0.hist| - 1] == Cur(s0);
    HeldInHistory(s.hist, |s0.hist| - 1, y.name);
    assert LastWrite(s.log, Cm(p.x), 0) && !Omits(s.log[0], u);
  }

  /**
    With one worker and one lasting Krakend: a published and claimed resource is marked for deletion and
    then edited, which nobody checks, to name a Krakend that does not exist.  Its finalizer goes and no
    ConfigMap is rewritten: no resource is left, its endpoint is still served.
   */
  lemma EditedDeletionLeavesEndpoints(c: Config, x: Cast)
    returns (tr: seq<State>, evs: seq<Event>, u: nat, out: seq<GatewayEndpoint>)
    requires ConfigOk(c) && CastOk(x)
    ensures OneKrakendRun(c, x.k.name, tr, evs) && Bounded(tr, 1) && |out| == 1 && Strands(x, tr[|tr| - 1], u)
    ensures Cur(tr[|tr| - 1]) == Holding(x, map[], ConfigMap(4, Some(Partials(out))))
  {
    RunsOfOk(c, x, {0}, true);
    var s;
    s, u, out := ReleasedElsewhere(RunsOf(c, x, {0}, true));
    tr, evs := OneWorkerRun(c, x.k.name, true, s);
  }

  // ----- a deletion rewrites the ConfigMap of one Krakend, a listing covers the namespace -----

  /** The same cast with a second Krakend. */
  function Second(x: Cast): Cast {
    x.(k := x.k.(name := x.k.name + "2"))
  }

  lemma SecondDiffers(x: Cast)
    requires CastOk(x)
    ensures CastOk(Second(x)) && Second(x).k.name != x.k.name && Cm(Second(x)) != Cm(x)
  {
    assert |Cm(Second(x))| == |Cm(x)| + 1;
  }

  function HoldingBoth(x: Cast, api: map<string, ApiEndpoints>, cm: ConfigMap, cm2: ConfigMap): Store {
    Store(api, map[x.k.name := x.k, Second(x).k.name := Second(x).k], map[Cm(x) := cm, Cm(Second(x)) := cm2])
  }

  lemma HoldingBothCm(x: Cast, api: map<string, ApiEndpoints>, cm: ConfigMap, cm2: ConfigMap, data: Option<Data>,
                      rev: nat)
    requires CastOk(x)
    ensures PutCm(HoldingBoth(x, api, cm, cm2), Cm(x), data, rev) == HoldingBoth(x, api, ConfigMap(rev, data), cm2)
    ensures PutCm(HoldingBoth(x, api, cm, cm2), Cm(Second(x)), data, rev)
            == HoldingBoth(x, api, cm, ConfigMap(rev, data))
  {
    SecondDiffers(x);
  }

  lemma BothInstalled(p: Play) returns (s: State)
    requires PlayOk(p) && !p.single
    ensures p.good(s) && s.log == [] && s.workers == map[] && |s.hist| == 5
    ensures Cur(s) == HoldingBoth(p.x, map[], ConfigMap(2, Some(Template(BLANK))), ConfigMap(4, Some(Template(BLANK))))
  {
    var s0 := Installed(p);
    SecondDiffers(p.x);
    s := Install(p, Second(p.x), s0);
  }

  /** b, which names the second Krakend, is published there and claimed. */
  lemma BothPublished(p: Play) returns (s: State, b: ApiEndpoints, d: Data)
    requires PlayOk(p) && !p.single && 0 in p.crew
    ensures p.good(s) && s.hist != [] && |s.log| == 1 && s.log[0].cm == Cm(Second(p.x))
    ensures s.workers == map[0 := Wrote(b.name, p.c.hash(b.spec), Second(p.x).k)]
    ensures Unsynced(b, p.x.b, SpecOf(Second(p.x), [p.x.one])) && b.finalizers == {} && b.owners == []
    ensures Cur(s) == HoldingBoth(p.x, map[b.name := b], ConfigMap(2, Some(Template(BLANK))), ConfigMap(6, Some(d)))
    ensures d.Partials? && |d.endpoints| == 1 && b.uid < |s.hist|
  {
    var x2 := Second(p.x);
    var s0 := BothInstalled(p);
    SecondDiffers(p.x);
    var spec := SpecOf(x2, [p.x.one]);
    AloneAdmitted(p.c.ns, Cur(s0).krakends, Cur(s0).api, NewEndpoints(s0, p.x.b, spec, {}, []));
    var s1;
    s1, b := Create(p, s0, p.x.b, spec);
    var out := OneListed(x2.k, b);
    StartSync(p, x2, s1, b);
    s := WorkAlone(p, x2, s1, 0, b.name, SyncOf(p, b), [b], [b], out);
    d := Partials(out);
  }

  /** b, claimed, names the second Krakend, whose ConfigMap holds `d`. */
  ghost predicate AtSecond(x: Cast, b: ApiEndpoints, d: Data) {
    Claimant(b, x.b, SpecOf(Second(x), [x.one])) && d.Partials? && |d.endpoints| == 1
  }

  lemma BothClaimed(p: Play) returns (s: State, b: ApiEndpoints, d: Data)
    requires PlayOk(p) && !p.single && 0 in p.crew
    ensures p.good(s) && s.hist != [] && |s.log| == 1 && s.workers == map[0 := Idle]
    ensures AtSecond(p.x, b, d) && !b.deleting && b.uid < |s.hist|
    ensures Cur(s) == HoldingBoth(p.x, map[p.x.b := b], ConfigMap(2, Some(Template(BLANK))), ConfigMap(6, Some(d)))
  {
    var s0, b0;
    s0, b0, d := BothPublished(p);
    SecondDiffers(p.x);
    AloneAdmitted(p.c.ns, Cur(s0).krakends, Cur(s0).api, Claim(b0, Second(p.x).k));
    s, b := ClaimStep(p, Second(p.x), s0, 0, b0);
    assert s.workers == map[0 := Idle];
    assert map[p.x.b := b0][p.x.b := b] == map[p.x.b := b];
  }

  /** a, which names the first Krakend, is created. */
  lemma BothCreated(p: Play) returns (s: State, a: ApiEndpoints, b: ApiEndpoints, d: Data)
    requires PlayOk(p) && !p.single && 0 in p.crew
    ensures p.good(s) && s.hist != [] && |s.log| == 1 && s.workers == map[0 := Idle]
    ensures AtSecond(p.x, b, d) && !b.deleting && Pair(p.x, a, b) && a.uid != b.uid
    ensures Cur(s) == HoldingBoth(p.x, Two(p.x, a, b), ConfigMap(2, Some(Template(BLANK))), ConfigMap(6, Some(d)))
  {
    var s0;
    s0, b, d := BothClaimed(p);
    var x := p.x;
    a := NewEndpoints(s0, x.a, SpecOf(x, []), {}, []);
    TwoMaps(x, a, b, b);
    TwoUnique(x, a, b);
    s, a := Create(p, s0, x.a, SpecOf(x, []));
  }

  /** Worker 0 takes up a and lists b too. */
  lemma FirstListed(p: Play) returns (s: State, a: ApiEndpoints, b: ApiEndpoints, d: Data, out: seq<GatewayEndpoint>)
    requires PlayOk(p) && !p.single && 0 in p.crew
    ensures s.hist != [] && |s.log| == 1 && s.workers == map[0 := Idle] && |out| == 1
    ensures AtSecond(p.x, b, d) && !b.deleting && Pair(p.x, a, b) && a.uid != b.uid
    ensures Cur(s) == HoldingBoth(p.x, Two(p.x, a, b), ConfigMap(2, Some(Template(BLANK))), ConfigMap(6, Some(d)))
    ensures Cm(p.x) in Cur(s).cms && p.good(Move(s, 0, Listed(p.x, s, SyncOf(p, a), [a, b], out)))
  {
    s, a, b, d := BothCreated(p);
    out := BothServed(p.x.k, p.x, a, b);
    TwoEnumerated(p.x, a, b);
    SecondDiffers(p.x);
    StartSync(p, p.x, s, a);
    ReadUpToList(p, p.x, s, 0, p.x.a, SyncOf(p, a), [a, b], [a, b], out);
  }

  /** The first Krakend's ConfigMap is written with b in it. */
  lemma FirstWritten(p: Play) returns (s: State, a: ApiEndpoints, b: ApiEndpoints, d: Data, out: seq<GatewayEndpoint>)
    requires PlayOk(p) && !p.single && 0 in p.crew
    ensures p.good(s) && s.hist != [] && |s.log| == 2 && s.workers.Keys == {0} && |out| == 1
    ensures s.log[1].cm == Cm(p.x) && s.log[1].items == [a, b]
    ensures AtSecond(p.x, b, d) && !b.deleting && Pair(p.x, a, b) && a.uid != b.uid
    ensures Cur(s) == HoldingBoth(p.x, Two(p.x, a, b), ConfigMap(|s.hist| - 1, Some(Partials(out))),
                                  ConfigMap(6, Some(d)))
  {
    var s0;
    s0, a, b, d, out := FirstListed(p);
    SecondDiffers(p.x);
    s := PublishListed(p, p.x, s0, 0, SyncOf(p, a), [a, b], out);
    HoldingBothCm(p.x, Two(p.x, a, b), ConfigMap(2, Some(Template(BLANK))), ConfigMap(6, Some(d)),
                  Some(Partials(out)), |s0.hist|);
  }

  /** The worker gives up, and b is marked for deletion. */
  lemma MarkedAtSecond(p: Play) returns (s: State, a: ApiEndpoints, b: ApiEndpoints, d: Data, out: seq<GatewayEndpoint>)
    requires PlayOk(p) && !p.single && 0 in p.crew
    ensures p.good(s) && s.hist != [] && |s.log| == 2 && s.workers == map[0 := Idle] && |out| == 1
    ensures s.log[1].cm == Cm(p.x) && exists e :: e in s.log[1].items && e.uid == b.uid
    ensures AtSecond(p.x, b, d) && b.deleting && Pair(p.x, a, b) && a.uid != b.uid
    ensures Cm(p.x) in Cur(s).cms && Cur(s).cms[Cm(p.x)].data == Some(Partials(out))
    ensures Cur(s) == HoldingBoth(p.x, Two(p.x, a, b), Cur(s).cms[Cm(p.x)], ConfigMap(6, Some(d)))
  {
    var s0, b0;
    s0, a, b0, d, out := FirstWritten(p);
    Abort(p, s0, 0);
    var s1 := Move(s0, 0, Idle);
    assert s1.workers == map[0 := Idle];
    s, b := Mark(p, s1, b0);
    TwoMaps(p.x, a, b0, b);
    SecondDiffers(p.x);
    assert s.log[1].items[1] == b0;
  }

  /** The deletion is handled: only the second Krakend's ConfigMap is rewritten. */
  lemma SecondCleared(p: Play) returns (s: State, a: ApiEndpoints, b: ApiEndpoints, out: seq<GatewayEndpoint>)
    requires PlayOk(p) && !p.single && 0 in p.crew
    ensures p.good(s) && s.hist != [] && |s.log| == 3 && |out| == 1
    ensures s.log[1].cm == Cm(p.x) && s.log[2].cm != Cm(p.x) && exists e :: e in s.log[1].items && e.uid == b.uid
    ensures Claimant(b, p.x.b, SpecOf(Second(p.x), [p.x.one])) && b.deleting && a.uid != b.uid
    ensures At(s, 0).Cleared? && At(s, 0).e == b && Pair(p.x, a, b) && Cur(s).api == Two(p.x, a, b)
    ensures Cm(p.x) in Cur(s).cms && Cur(s).cms[Cm(p.x)].data == Some(Partials(out))
  {
    var s0, d;
    s0, a, b, d, out := MarkedAtSecond(p);
    SecondDiffers(p.x);
    TwoEnumerated(p.x, a, b);
    OnlyPlain(Second(p.x).k, p.x, a, b);
    s := WorkAlone(p, Second(p.x), s0, 0, p.x.b, Deletion(b, |s0.hist| - 1), [a, b], [a], []);
  }

  lemma OtherConfigMapStrands(p: Play) returns (s: State, u: nat, a: ApiEndpoints, out: seq<GatewayEndpoint>)
    requires PlayOk(p) && !p.single && 0 in p.crew
    ensures p.good(s) && |out| == 1 && Strands(p.x, s, u)
    ensures Cur(s).api == map[a.name := a] && a.spec == SpecOf(p.x, [])
    ensures Cm(p.x) in Cur(s).cms && Cur(s).cms[Cm(p.x)].data == Some(Partials(out))
  {
    var s0, b;
    s0, a, b, out := SecondCleared(p);
    s := ReleaseStep(p, s0, 0, b);
    u := b.uid;
    TwoMaps(p.x, a, b, b);
    assert s.hist[|s0.hist| - 1] == Cur(s0);
    HeldInHistory(s.hist, |s0.hist| - 1, p.x.b);
    assert LastWrite(s.log, Cm(p.x), 1) && !Omits(s.log[1], u);
  }

  /**
    With one worker and nothing in between: b names the second Krakend, the first Krakend's ConfigMap
    lists b as well because a listing covers the namespace, and the deletion of b rewrites only the
    second one's.  What is left declares no endpoint, and the first Krakend serves one.
   */
  lemma OtherKrakendKeepsEndpoints(c: Config, x: Cast)
    returns (tr: seq<State>, evs: seq<Event>, u: nat, a: ApiEndpoints, out: seq<GatewayEndpoint>)
    requires ConfigOk(c) && CastOk(x)
    ensures Run(c, tr, evs) && Bounded(tr, 1) && |out| == 1 && Strands(x, tr[|tr| - 1], u)
    ensures var st := Cur(tr[|tr| - 1]);
            && st.api == map[a.name := a] && a.spec == SpecOf(x, [])
            && Cm(x) in st.cms && st.cms[Cm(x)].data == Some(Partials(out))
  {
    RunsOfOk(c, x, {0}, false);
    var s;
    s, u, a, out := OtherConfigMapStrands(RunsOf(c, x, {0}, false));
    tr, evs := OneWorkerRun(c, x.k.name, false, s);
  }
}
