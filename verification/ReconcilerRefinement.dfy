/** A reconcile that nobody interleaves with is a run of the protocol with the same result. */
module ReconcilerRefinement {
  import opened ApiTypes
  import opened GatewayCompiler
  import opened Admission
  import opened Protocol
  import opened Reconciler

  ghost function Shared(s: State): Versioned
    requires s.hist != []
  {
    Versioned(Cur(s), |s.hist|)
  }

  /** The call a worker makes next. */
  function NextCall(w: nat, pc: Pc, listed: seq<ApiEndpoints>): Event
    requires !pc.Idle?
  {
    match pc
    case Fetched(_, _) => GetKrakend(w)
    case HaveKrakend(_, _) => GetConfigMap(w)
    case HaveConfigMap(_, _, _, _) => ListEndpoints(w, listed)
    case HaveList(_, _, _, _, _, _, _) => UpdateConfigMap(w)
    case Cleared(_, _, _) => RemoveFinalizer(w)
    case Wrote(_, _, _) => Refetch(w)
    case Claiming(_, _, _, _) => UpdateEndpoints(w)
    case Claimed(_, _) => RefetchAgain(w)
    case Recording(_, _, _) => UpdateStatus(w)
  }

  function CallsLeft(pc: Pc): nat {
    match pc
    case Idle => 0
    case Fetched(_, _) => 8
    case HaveKrakend(_, _) => 7
    case HaveConfigMap(_, _, _, _) => 6
    case HaveList(_, _, _, _, _, _, _) => 5
    case Cleared(_, _, _) => 1
    case Wrote(_, _, _) => 4
    case Claiming(_, _, _, _) => 3
    case Claimed(_, _) => 2
    case Recording(_, _, _) => 1
  }

  // ----- the effect still ahead of a worker -----

  function ClearRest(v: Versioned, e: ApiEndpoints): Versioned {
    if KRAKEND_FINALIZER in e.finalizers && e.name in v.st.api && v.st.api[e.name].version == e.version
    then PutApiV(v, e.(finalizers := e.finalizers - {KRAKEND_FINALIZER}))
    else v
  }

  function RecordRest(v: Versioned, clock: int, n: string, hash: string): Versioned {
    if n in v.st.api then PutApiV(v, v.st.api[n].(status := Status(clock, hash))) else v
  }

  ghost function UpdateRest(c: Config, v: Versioned, clock: int, n: string, hash: string,
                            base: ApiEndpoints, k: Krakend): Versioned {
    var e := Claim(base, k);
    if && n in v.st.api && v.st.api[n].version == base.version
       && UpdateAllowed(v.st.api[n], e.finalizers) && Admitted(c.ns, v.st.krakends, v.st.api, e)
    then RecordRest(PutApiV(v, e), clock, n, hash)
    else v
  }

  ghost function WroteRest(c: Config, v: Versioned, clock: int, n: string, hash: string, k: Krakend): Versioned {
    if n !in v.st.api then v
    else if KRAKEND_FINALIZER in v.st.api[n].finalizers && v.st.api[n].owners != [] then RecordRest(v, clock, n, hash)
    else UpdateRest(c, v, clock, n, hash, v.st.api[n], k)
  }

  ghost function JobRest(c: Config, v: Versioned, clock: int, job: Job, k: Krakend): Versioned {
    match job
    case Deletion(e, _) => ClearRest(v, e)
    case Sync(n, hash) => WroteRest(c, v, clock, n, hash, k)
  }

  ghost function WriteRest(c: Config, v: Versioned, clock: int, job: Job, k: Krakend,
                           cm: ConfigMap, out: seq<GatewayEndpoint>): Versioned {
    var n := CmName(k.name);
    if n in v.st.cms && v.st.cms[n].version == cm.version then
      var v' := if c.everyWriteCounts || !Reads(c, v.st.cms[n].data, out)
                then Versioned(PutCm(v.st, n, Some(Partials(out)), v.next), v.next + 1) else v;
      JobRest(c, v', clock, job, k)
    else v
  }

  ghost function ListRest(c: Config, v: Versioned, clock: int, job: Job, k: Krakend,
                          cm: ConfigMap, listed: seq<ApiEndpoints>): Versioned {
    match Compile(k, FilterLive(listed))
    case None => v
    case Some(out) => WriteRest(c, v, clock, job, k, cm, out)
  }

  ghost function KrakendRest(c: Config, v: Versioned, clock: int, job: Job, k: Krakend,
                             listed: seq<ApiEndpoints>): Versioned {
    var n := CmName(k.name);
    if n in v.st.cms && v.st.cms[n].data.Some? then ListRest(c, v, clock, job, k, v.st.cms[n], listed) else v
  }

  ghost function Rest(c: Config, v: Versioned, clock: int, pc: Pc, listed: seq<ApiEndpoints>): Versioned {
    match pc
    case Idle => v
    case Fetched(job, kname) =>
      if kname in v.st.krakends then KrakendRest(c, v, clock, job, v.st.krakends[kname], listed)
      else if job.Deletion? then ClearRest(v, job.e)
      else v
    case HaveKrakend(job, k) => KrakendRest(c, v, clock, job, k, listed)
    case HaveConfigMap(job, k, cm, _) => ListRest(c, v, clock, job, k, cm, listed)
    case HaveList(job, k, cm, _, _, _, out) => WriteRest(c, v, clock, job, k, cm, out)
    case Cleared(e, _, _) => ClearRest(v, e)
    case Wrote(n, hash, k) => WroteRest(c, v, clock, n, hash, k)
    case Claiming(n, hash, base, k) => UpdateRest(c, v, clock, n, hash, base, k)
    case Claimed(n, hash) => RecordRest(v, clock, n, hash)
    case Recording(n, hash, base) =>
      if n in v.st.api && v.st.api[n].version == base.version
      then PutApiV(v, base.(status := Status(clock, hash))) else v
  }

  /** Before its listing a worker leaves the ApiEndpoints alone, so a listing taken now stays good. */
  ghost predicate Ready(s: State, pc: Pc, listed: seq<ApiEndpoints>)
    requires s.hist != []
  {
    pc.Fetched? || pc.HaveKrakend? || pc.HaveConfigMap? ==> Enumerates(Cur(s).api, listed)
  }

  /** The worker's next call is possible, brings it closer to the end and keeps the effect ahead. */
  ghost predicate Proceeds(c: Config, s: State, w: nat, listed: seq<ApiEndpoints>)
    requires s.hist != [] && !At(s, w).Idle?
  {
    var ev := NextCall(w, At(s, w), listed);
    Enabled(c, s, ev) &&
    var s' := Apply(c, s, ev);
    && s'.hist != [] && s'.clock == s.clock && Ready(s', At(s', w), listed)
    && (forall v: nat :: v != w ==> At(s', v) == At(s, v))
    && CallsLeft(At(s', w)) < CallsLeft(At(s, w))
    && Rest(c, Shared(s'), s.clock, At(s', w), listed) == Rest(c, Shared(s), s.clock, At(s, w), listed)
  }

  lemma ReadProceeds(c: Config, s: State, w: nat, listed: seq<ApiEndpoints>)
    requires s.hist != [] && Ready(s, At(s, w), listed)
    requires At(s, w).Fetched? || At(s, w).HaveKrakend? || At(s, w).HaveConfigMap?
             || At(s, w).Wrote? || At(s, w).Claimed?
    ensures Proceeds(c, s, w, listed)
  {
  }

  lemma ConfigMapWriteProceeds(c: Config, s: State, w: nat, listed: seq<ApiEndpoints>)
    requires s.hist != [] && At(s, w).HaveList?
    ensures Proceeds(c, s, w, listed)
  {
    var s', pc := DoUpdateConfigMap(c, s, w), At(s, w);
    var n, st := CmName(pc.k.name), Cur(s);
    if n in st.cms && st.cms[n].version == pc.cm.version {
      assert Shared(s') == if c.everyWriteCounts || !Reads(c, st.cms[n].data, pc.out)
        then Versioned(PutCm(st, n, Some(Partials(pc.out)), |s.hist|), |s.hist| + 1) else Shared(s);
    }
  }

  lemma RemovalProceeds(c: Config, s: State, w: nat, listed: seq<ApiEndpoints>)
    requires s.hist != [] && At(s, w).Cleared?
    ensures Proceeds(c, s, w, listed)
  {
  }

  lemma ClaimProceeds(c: Config, s: State, w: nat, listed: seq<ApiEndpoints>)
    requires s.hist != [] && At(s, w).Claiming?
    ensures Proceeds(c, s, w, listed)
  {
  }

  lemma StatusProceeds(c: Config, s: State, w: nat, listed: seq<ApiEndpoints>)
    requires s.hist != [] && At(s, w).Recording?
    ensures Proceeds(c, s, w, listed)
  {
  }

  lemma CallProceeds(c: Config, s: State, w: nat, listed: seq<ApiEndpoints>)
    requires s.hist != [] && !At(s, w).Idle? && Ready(s, At(s, w), listed)
    ensures Proceeds(c, s, w, listed)
  {
    var pc := At(s, w);
    if pc.HaveList? {
      ConfigMapWriteProceeds(c, s, w, listed);
    } else if pc.Cleared? {
      RemovalProceeds(c, s, w, listed);
    } else if pc.Claiming? {
      ClaimProceeds(c, s, w, listed);
    } else if pc.Recording? {
      StatusProceeds(c, s, w, listed);
    } else {
      ReadProceeds(c, s, w, listed);
    }
  }

  /** The worker's remaining calls, made one after the other, form a run that ends with that effect. */
  lemma {:induction false} DriveAlone(c: Config, s: State, w: nat, listed: seq<ApiEndpoints>)
    returns (tr: seq<State>, evs: seq<Event>)
    requires s.hist != [] && Ready(s, At(s, w), listed)
    ensures Steps(c, tr, evs) && tr[0] == s
    ensures var last := tr[|tr| - 1];
            && last.hist != [] && At(last, w).Idle? && last.clock == s.clock
            && (forall v: nat :: v != w ==> At(last, v) == At(s, v))
            && Shared(last) == Rest(c, Shared(s), s.clock, At(s, w), listed)
    decreases CallsLeft(At(s, w))
  {
    if At(s, w).Idle? {
      tr, evs := [s], [];
    } else {
      var ev := NextCall(w, At(s, w), listed);
      CallProceeds(c, s, w, listed);
      var s' := Apply(c, s, ev);
      var tr', evs' := DriveAlone(c, s', w, listed);
      tr, evs := [s] + tr', [ev] + evs';
      StepsCons(c, s, ev, tr', evs');
    }
  }

  lemma StepsCons(c: Config, s: State, ev: Event, tr: seq<State>, evs: seq<Event>)
    requires Enabled(c, s, ev) && Steps(c, tr, evs) && tr[0] == Apply(c, s, ev)
    ensures Steps(c, [s] + tr, [ev] + evs)
  {
    var tr', evs' := [s] + tr, [ev] + evs;
    forall i | 0 <= i < |evs'| ensures StepAt(c, tr', evs', i) {
      if i > 0 {
        assert StepAt(c, tr, evs, i - 1);
        assert tr'[i] == tr[i - 1] && evs'[i] == evs[i - 1] && tr'[i + 1] == tr[i - 1 + 1];
      }
    }
  }

  /** What lies ahead after the first read is what the whole call computes. */
  lemma RestIsReconciled(c: Config, s: State, n: string, listed: seq<ApiEndpoints>)
    requires s.hist != [] && NamesMatch(Cur(s).api)
    ensures Rest(c, Shared(s), s.clock, AfterGet(c, s, n), listed)
            == Reconciled(c, Shared(s), s.clock, n, listed).after
  {
    var v := Shared(s);
    if n in v.st.api {
      var e := v.st.api[n];
      var kname := KrakendName(c.ns, e.spec);
      if kname in v.st.krakends && (e.deleting || !Skips(c, e, s.clock)) {
        var u := ConfigMapUpdated(c, v, v.st.krakends[kname], listed);
        if u.Some? {
          assert u.value.st.api == v.st.api && u.value.st.krakends == v.st.krakends;
        }
      }
    }
  }

  /** With worker w idle and key n free, an undisturbed reconcile of n is a run of the protocol. */
  lemma ReconcileIsRun(c: Config, s: State, w: nat, n: string, listed: seq<ApiEndpoints>)
    returns (tr: seq<State>, evs: seq<Event>)
    requires s.hist != [] && NamesMatch(Cur(s).api) && Enumerates(Cur(s).api, listed)
    requires At(s, w).Idle? && forall w' :: Key(At(s, w')) != Some(n)
    ensures Steps(c, tr, evs) && tr[0] == s
    ensures var last := tr[|tr| - 1];
            && last.hist != [] && At(last, w).Idle? && last.clock == s.clock
            && (forall v: nat :: v != w ==> At(last, v) == At(s, v))
            && Shared(last) == Reconciled(c, Shared(s), s.clock, n, listed).after
  {
    var s' := Apply(c, s, Begin(w, n));
    var tr', evs' := DriveAlone(c, s', w, listed);
    tr, evs := [s] + tr', [Begin(w, n)] + evs';
    StepsCons(c, s, Begin(w, n), tr', evs');
    RestIsReconciled(c, s, n, listed);
  }

  /** The resource after a completed synchronization with hash `hash`, at time `clock`. */
  function Synchronized(e: ApiEndpoints, version: nat, k: Krakend, clock: int, hash: string): ApiEndpoints {
    e.(version := version, finalizers := e.finalizers + {"finalizer.krakend.nais.io"},
       owners := if e.owners == [] then [OwnerRef(k.name, k.uid)] else e.owners, status := Status(clock, hash))
  }

  /**
    Whatever happened between a worker's reads and its ConfigMap write, from there on, undisturbed, it
    records the hash it has carried since its first read, on the resource as it is now, with finalizer and
    owner.  It gives up only if the resource is gone, or lacks the finalizer or an owner and is marked for
    deletion without the finalizer or not admitted.
   */
  lemma ResumeAfterWrite(c: Config, s: State, w: nat) returns (tr: seq<State>, evs: seq<Event>)
    requires s.hist != [] && At(s, w).Wrote? && NamesMatch(Cur(s).api)
    ensures Steps(c, tr, evs) && tr[0] == s && tr[|tr| - 1].hist != [] && At(tr[|tr| - 1], w).Idle?
    ensures var pc, st, st' := At(s, w), Cur(s), Cur(tr[|tr| - 1]);
            if pc.name in st.api
               && var e := st.api[pc.name];
                  || ("finalizer.krakend.nais.io" in e.finalizers && e.owners != [])
                  || (&& (e.deleting ==> "finalizer.krakend.nais.io" in e.finalizers)
                      && Admitted(c.ns, st.krakends, st.api,
                                  Synchronized(e, e.version, pc.k, e.status.timestamp, e.status.hash)))
            then pc.name in st'.api
                 && st' == st.(api := st.api[pc.name :=
                      Synchronized(st.api[pc.name], st'.api[pc.name].version, pc.k, s.clock, pc.hash)])
            else st' == st
  {
    tr, evs := DriveAlone(c, s, w, []);
    RestAfterWrite(c, Shared(s), s.clock, At(s, w).name, At(s, w).hash, At(s, w).k);
  }

  lemma RestAfterWrite(c: Config, v: Versioned, clock: int, n: string, hash: string, k: Krakend)
    requires NamesMatch(v.st.api)
    ensures var st, st' := v.st, WroteRest(c, v, clock, n, hash, k).st;
            if n in st.api
               && var e := st.api[n];
                  || ("finalizer.krakend.nais.io" in e.finalizers && e.owners != [])
                  || (&& (e.deleting ==> "finalizer.krakend.nais.io" in e.finalizers)
                      && Admitted(c.ns, st.krakends, st.api,
                                  Synchronized(e, e.version, k, e.status.timestamp, e.status.hash)))
            then n in st'.api
                 && st' == st.(api := st.api[n := Synchronized(st.api[n], st'.api[n].version, k, clock, hash)])
            else st' == st
  {
    if n in v.st.api {
      var e := v.st.api[n];
      assert Synchronized(e, e.version, k, e.status.timestamp, e.status.hash) == Claim(e, k);
      assert e.finalizers + {KRAKEND_FINALIZER} <= e.finalizers <==> KRAKEND_FINALIZER in e.finalizers;
      if KRAKEND_FINALIZER in e.finalizers { assert e.finalizers + {KRAKEND_FINALIZER} == e.finalizers; }
      assert KRAKEND_FINALIZER in e.finalizers + {KRAKEND_FINALIZER};
    }
  }
}
