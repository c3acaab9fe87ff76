/** Where a recorded hash comes from: the spec that was read first, before the listing that was written. */
module Provenance {
  import opened ApiTypes
  import opened Admission
  import opened Protocol
  import opened ProtocolInvariant
  import opened ProtocolTheorems
  import opened Comeback

  /** At revision `r` resource `n` was live, with a spec that hashes to `hash` and names Krakend `kname`. */
  ghost predicate ReadAt(c: Config, hist: seq<Store>, n: string, hash: string, kname: string, r: nat) {
    && r < |hist| && LiveIn(hist[r].api, n) && c.hash(hist[r].api[n].spec) == hash
    && kname == if hist[r].api[n].spec.krakend == "" then c.ns else hist[r].api[n].spec.krakend
  }

  /** Entry `j` wrote the ConfigMap of the Krakend that the spec read at `r` names, from a listing taken since. */
  ghost predicate ListedBy(c: Config, hist: seq<Store>, log: seq<Write>, n: string, hash: string, j: nat, r: nat) {
    j < |log| && r <= log[j].listRev
    && exists kname :: ReadAt(c, hist, n, hash, kname, r) && log[j].cm == CmName(kname)
  }

  ghost predicate Listed(c: Config, s: State, n: string, hash: string) {
    exists j: nat, r: nat :: ListedBy(c, s.hist, s.log, n, hash, j, r)
  }

  /** A synchronization read its resource at some revision up to `bound`. */
  ghost predicate JobRead(c: Config, s: State, job: Job, kname: string, bound: int) {
    job.Sync? ==> exists r: nat :: r <= bound && ReadAt(c, s.hist, job.name, job.hash, kname, r)
  }

  /** What a worker's position says about the hash it carries. */
  ghost predicate Carries(c: Config, s: State, pc: Pc) {
    match pc
    case Fetched(job, kname) => JobRead(c, s, job, kname, |s.hist| - 1)
    case HaveKrakend(job, k) => JobRead(c, s, job, k.name, |s.hist| - 1)
    case HaveConfigMap(job, k, _, cmRev) => JobRead(c, s, job, k.name, cmRev)
    case HaveList(job, k, _, _, listRev, _, _) => JobRead(c, s, job, k.name, listRev)
    case Wrote(n, hash, _) => Listed(c, s, n, hash)
    case Claiming(n, hash, _, _) => Listed(c, s, n, hash)
    case Claimed(n, hash) => Listed(c, s, n, hash)
    case Recording(n, hash, _) => Listed(c, s, n, hash)
    case _ => true
  }

  ghost predicate RecordedOk(c: Config, s: State)
    requires s.hist != []
  {
    forall n :: n in Cur(s).api && Cur(s).api[n].status.hash != "" ==> Listed(c, s, n, Cur(s).api[n].status.hash)
  }

  ghost predicate Traced(c: Config, s: State) {
    s.hist != [] && RecordedOk(c, s) && forall w: nat :: Carries(c, s, At(s, w))
  }

  // ----- what is known stays known -----

  lemma ListedStays(c: Config, s: State, s': State, n: string, hash: string)
    requires s.hist <= s'.hist && s.log <= s'.log && Listed(c, s, n, hash)
    ensures Listed(c, s', n, hash)
  {
    var j: nat, r: nat :| ListedBy(c, s.hist, s.log, n, hash, j, r);
    var kname :| ReadAt(c, s.hist, n, hash, kname, r) && s.log[j].cm == CmName(kname);
    assert ReadAt(c, s'.hist, n, hash, kname, r) && s'.log[j] == s.log[j];
    assert ListedBy(c, s'.hist, s'.log, n, hash, j, r);
  }

  lemma JobReadStays(c: Config, s: State, s': State, job: Job, kname: string, bound: int, bound': int)
    requires s.hist <= s'.hist && bound <= bound' && JobRead(c, s, job, kname, bound)
    ensures JobRead(c, s', job, kname, bound')
  {
    if job.Sync? {
      var r: nat :| r <= bound && ReadAt(c, s.hist, job.name, job.hash, kname, r);
      assert ReadAt(c, s'.hist, job.name, job.hash, kname, r);
    }
  }

  lemma CarriesStays(c: Config, s: State, s': State, pc: Pc)
    requires s.hist <= s'.hist && s.log <= s'.log && Carries(c, s, pc)
    ensures Carries(c, s', pc)
  {
    match pc
    case Fetched(job, kname) => JobReadStays(c, s, s', job, kname, |s.hist| - 1, |s'.hist| - 1);
    case HaveKrakend(job, k) => JobReadStays(c, s, s', job, k.name, |s.hist| - 1, |s'.hist| - 1);
    case HaveConfigMap(job, k, _, cmRev) => JobReadStays(c, s, s', job, k.name, cmRev, cmRev);
    case HaveList(job, k, _, _, listRev, _, _) => JobReadStays(c, s, s', job, k.name, listRev, listRev);
    case Wrote(n, hash, _) => ListedStays(c, s, s', n, hash);
    case Claiming(n, hash, _, _) => ListedStays(c, s, s', n, hash);
    case Claimed(n, hash) => ListedStays(c, s, s', n, hash);
    case Recording(n, hash, _) => ListedStays(c, s, s', n, hash);
    case _ =>
  }

  // ----- the worker that takes a step -----

  lemma FirstRead(c: Config, s: State, n: string)
    requires Inv(c, s)
    ensures Carries(c, s, AfterGet(c, s, n))
  {
    assert StoreOk(s.hist, |s.hist| - 1);
    var pc := AfterGet(c, s, n);
    if pc.Fetched? && pc.job.Sync? {
      assert ReadAt(c, s.hist, n, pc.job.hash, pc.kname, |s.hist| - 1);
    }
  }

  lemma EarlyReads(c: Config, s: State, pc: Pc)
    requires Inv(c, s) && Carries(c, s, pc)
    ensures pc.Fetched? ==> Carries(c, s, AfterGetKrakend(s, pc))
    ensures pc.HaveKrakend? ==> Carries(c, s, AfterGetConfigMap(s, pc))
  {
    assert StoreOk(s.hist, |s.hist| - 1);
  }

  lemma ListingRead(c: Config, s: State, pc: Pc, listed: seq<ApiEndpoints>)
    requires Inv(c, s) && pc.HaveConfigMap? && WorkerOk(c, s, pc) && Carries(c, s, pc)
    requires Enumerates(Cur(s).api, listed)
    ensures Carries(c, s, AfterList(s, pc, listed))
  {
    assert StoreOk(s.hist, |s.hist| - 1);
    AfterListShape(s, pc, listed);
    ListingKeepsRead(c, s, pc, AfterList(s, pc, listed));
  }

  lemma ListingKeepsRead(c: Config, s: State, pc: Pc, q: Pc)
    requires s.hist != [] && pc.HaveConfigMap? && WorkerOk(c, s, pc) && Carries(c, s, pc) && ListedOk(s, pc, q)
    ensures Carries(c, s, q)
  {
    if q.HaveList? {
      JobReadStays(c, s, s, pc.job, pc.k.name, pc.cmRev, |s.hist| - 1);
    }
  }

  /** The write is what makes the hash recordable. */
  lemma WriteLists(c: Config, s: State, w: nat)
    requires Inv(c, s) && At(s, w).HaveList? && Carries(c, s, At(s, w))
    ensures var s' := DoUpdateConfigMap(c, s, w); Carries(c, s', At(s', w))
  {
    var pc, s' := At(s, w), DoUpdateConfigMap(c, s, w);
    if GoesThrough(s, w) && pc.job.Sync? {
      WriteShape(c, s, w);
      var r: nat :| r <= pc.listRev && ReadAt(c, s.hist, pc.job.name, pc.job.hash, pc.k.name, r);
      assert ReadAt(c, s'.hist, pc.job.name, pc.job.hash, pc.k.name, r);
      assert ListedBy(c, s'.hist, s'.log, pc.job.name, pc.job.hash, |s.log|, r);
    }
  }

  // ----- the recorded hash -----

  /** A step leaves a recorded hash as it is, or records the one its worker carries. */
  lemma RecordedBy(c: Config, s: State, ev: Event, n: string)
    requires Inv(c, s) && Enabled(c, s, ev) && n in Cur(Apply(c, s, ev)).api
    ensures var hash := Cur(Apply(c, s, ev)).api[n].status.hash;
            || hash == "" || (n in Cur(s).api && Cur(s).api[n].status.hash == hash)
            || (ev.UpdateStatus? && At(s, ev.w).Recording? && At(s, ev.w).name == n && At(s, ev.w).hash == hash)
  {
    if ev.UserCreate? || ev.UserUpdate? || ev.UserDelete? {
      UsersRecordNothing(c, s, ev, n);
    } else if ev.RemoveFinalizer? {
      RemovalRecordsNothing(c, s, ev.w, n);
    } else if ev.UpdateEndpoints? {
      ClaimRecordsNothing(c, s, ev.w, n);
    } else if ev.UpdateStatus? {
      StatusRecords(c, s, ev.w, n);
    } else {
      OthersKeepApi(c, s, ev);
    }
  }

  lemma UsersRecordNothing(c: Config, s: State, ev: Event, n: string)
    requires Inv(c, s) && Enabled(c, s, ev) && n in Cur(Apply(c, s, ev)).api
    requires ev.UserCreate? || ev.UserUpdate? || ev.UserDelete?
    ensures var hash := Cur(Apply(c, s, ev)).api[n].status.hash;
            hash == "" || (n in Cur(s).api && Cur(s).api[n].status.hash == hash)
  {
    UserStepPuts(c, s, ev);
    UserObjectStatus(c, s, ev);
    PutStatus(Cur(s), UserObject(s, ev), |s.hist|, n);
  }

  lemma PutStatus(st: Store, e: ApiEndpoints, rev: nat, n: string)
    requires n in PutApi(st, e, rev).api
    ensures (n == e.name && PutApi(st, e, rev).api[n].status == e.status)
            || (n in st.api && PutApi(st, e, rev).api[n] == st.api[n])
  {
  }

  /** A user's request leaves the status of the named object as it is; a new object has none. */
  lemma UserObjectStatus(c: Config, s: State, ev: Event)
    requires Inv(c, s) && (ev.UserCreate? || ((ev.UserUpdate? || ev.UserDelete?) && ev.name in Cur(s).api))
    ensures var e := UserObject(s, ev);
            && e.name == ev.name
            && (e.status.hash == "" || (e.name in Cur(s).api && e.status == Cur(s).api[e.name].status))
  {
    assert StoreOk(s.hist, |s.hist| - 1);
  }

  lemma StatusRecords(c: Config, s: State, w: nat, n: string)
    requires Inv(c, s) && At(s, w).Recording? && n in Cur(DoUpdateStatus(s, w)).api
    ensures var hash := Cur(DoUpdateStatus(s, w)).api[n].status.hash;
            || (n in Cur(s).api && Cur(s).api[n].status.hash == hash)
            || (At(s, w).name == n && At(s, w).hash == hash)
  {
    assert WorkerOk(c, s, At(s, w));
  }

  lemma RemovalRecordsNothing(c: Config, s: State, w: nat, n: string)
    requires Inv(c, s) && At(s, w).Cleared? && n in Cur(DoRemoveFinalizer(s, w)).api
    ensures n in Cur(s).api && Cur(DoRemoveFinalizer(s, w)).api[n].status == Cur(s).api[n].status
  {
    var e := At(s, w).e;
    assert WorkerOk(c, s, At(s, w));
    if e.name in Cur(s).api && Cur(s).api[e.name].version == e.version { SnapshotCurrent(c, s, e); }
  }

  lemma ClaimRecordsNothing(c: Config, s: State, w: nat, n: string)
    requires Inv(c, s) && At(s, w).Claiming? && n in Cur(DoUpdateEndpoints(c, s, w)).api
    ensures n in Cur(s).api && Cur(DoUpdateEndpoints(c, s, w)).api[n].status == Cur(s).api[n].status
  {
    var e := At(s, w).base;
    assert WorkerOk(c, s, At(s, w));
    if e.name in Cur(s).api && Cur(s).api[e.name].version == e.version { SnapshotCurrent(c, s, e); }
  }

  lemma StepKeepsRecorded(c: Config, s: State, ev: Event)
    requires Inv(c, s) && Traced(c, s) && Enabled(c, s, ev)
    ensures Apply(c, s, ev).hist != [] && RecordedOk(c, Apply(c, s, ev))
  {
    var s' := Apply(c, s, ev);
    StepGrows(c, s, ev);
    forall n | n in Cur(s').api && Cur(s').api[n].status.hash != ""
      ensures Listed(c, s', n, Cur(s').api[n].status.hash)
    {
      RecordedBy(c, s, ev, n);
      if ev.UpdateStatus? { assert Carries(c, s, At(s, ev.w)); }
      ListedStays(c, s, s', n, Cur(s').api[n].status.hash);
    }
  }

  // ----- every step -----

  lemma ReadCarries(c: Config, s: State, ev: Event)
    requires Inv(c, s) && Traced(c, s) && Enabled(c, s, ev)
    requires ev.Begin? || ev.GetKrakend? || ev.GetConfigMap? || ev.ListEndpoints?
    ensures var s' := Apply(c, s, ev); Carries(c, s', At(s', ev.w))
  {
    var pc := At(s, ev.w);
    assert Carries(c, s, pc) && WorkerOk(c, s, pc);
    var q := match ev
      case Begin(_, n) => AfterGet(c, s, n)
      case GetKrakend(_) => AfterGetKrakend(s, pc)
      case GetConfigMap(_) => AfterGetConfigMap(s, pc)
      case ListEndpoints(_, listed) => AfterList(s, pc, listed);
    assert Apply(c, s, ev) == Move(s, ev.w, q);
    match ev {
      case Begin(_, n) => FirstRead(c, s, n);
      case GetKrakend(_) => EarlyReads(c, s, pc);
      case GetConfigMap(_) => EarlyReads(c, s, pc);
      case ListEndpoints(_, listed) => ListingRead(c, s, pc, listed);
    }
    CarriesStays(c, s, Move(s, ev.w, q), q);
  }

  lemma RefetchCarries(c: Config, s: State, ev: Event)
    requires Inv(c, s) && Traced(c, s) && Enabled(c, s, ev) && (ev.Refetch? || ev.RefetchAgain?)
    ensures var s' := Apply(c, s, ev); Carries(c, s', At(s', ev.w))
  {
    assert Carries(c, s, At(s, ev.w));
    ListedStays(c, s, Apply(c, s, ev), At(s, ev.w).name, At(s, ev.w).hash);
  }

  lemma ResourceWriteCarries(c: Config, s: State, ev: Event)
    requires Inv(c, s) && Traced(c, s) && Enabled(c, s, ev)
    requires ev.RemoveFinalizer? || ev.UpdateEndpoints? || ev.UpdateStatus? || ev.Fail?
    ensures var s' := Apply(c, s, ev); Carries(c, s', At(s', ev.w))
  {
    var s' := Apply(c, s, ev);
    StepGrows(c, s, ev);
    if ev.UpdateEndpoints? && At(s', ev.w).Claimed? {
      assert Carries(c, s, At(s, ev.w));
      ListedStays(c, s, s', At(s, ev.w).name, At(s, ev.w).hash);
    }
  }

  predicate HasWorker(ev: Event) {
    || ev.Begin? || ev.GetKrakend? || ev.GetConfigMap? || ev.ListEndpoints? || ev.UpdateConfigMap?
    || ev.RemoveFinalizer? || ev.Refetch? || ev.UpdateEndpoints? || ev.RefetchAgain? || ev.UpdateStatus? || ev.Fail?
  }

  lemma OthersStandStill(c: Config, s: State, ev: Event, w: nat)
    requires Enabled(c, s, ev) && (HasWorker(ev) ==> ev.w != w)
    ensures At(Apply(c, s, ev), w) == At(s, w)
  {
  }

  lemma StepKeepsTraced(c: Config, s: State, ev: Event)
    requires Inv(c, s) && Traced(c, s) && Enabled(c, s, ev)
    ensures Traced(c, Apply(c, s, ev))
  {
    var s' := Apply(c, s, ev);
    StepKeepsRecorded(c, s, ev);
    StepGrows(c, s, ev);
    forall w: nat ensures Carries(c, s', At(s', w)) {
      assert Carries(c, s, At(s, w));
      if !HasWorker(ev) || ev.w != w {
        OthersStandStill(c, s, ev, w);
        CarriesStays(c, s, s', At(s, w));
      } else if ev.UpdateConfigMap? {
        WriteLists(c, s, w);
      } else if ev.RemoveFinalizer? || ev.UpdateEndpoints? || ev.UpdateStatus? || ev.Fail? {
        ResourceWriteCarries(c, s, ev);
      } else if ev.Refetch? || ev.RefetchAgain? {
        RefetchCarries(c, s, ev);
      } else {
        ReadCarries(c, s, ev);
      }
    }
  }

  lemma {:induction false} RunIsTraced(c: Config, tr: seq<State>, evs: seq<Event>, t: nat)
    requires Run(c, tr, evs) && t < |tr|
    ensures Traced(c, tr[t])
  {
    if t == 0 {
      assert forall w: nat :: At(tr[0], w) == Idle;
    } else {
      RunIsTraced(c, tr, evs, t - 1);
      RunKeepsInv(c, tr, evs, t - 1);
      assert StepAt(c, tr, evs, t - 1);
      StepKeepsTraced(c, tr[t - 1], evs[t - 1]);
    }
  }

  /**
    In every reachable state, a recorded hash is that of a spec which the resource had, live, at some
    revision, and the ConfigMap of the Krakend which that spec names was since written from a listing no
    older than that revision.  So no recorded hash is newer than what was listed.
   */
  lemma RecordedHashWasListed(c: Config, tr: seq<State>, evs: seq<Event>, t: nat, n: string)
    requires Run(c, tr, evs) && t < |tr| && tr[t].hist != [] && n in Cur(tr[t]).api
    requires Cur(tr[t]).api[n].status.hash != ""
    ensures exists j: nat, r: nat ::
              ListedBy(c, tr[t].hist, tr[t].log, n, Cur(tr[t]).api[n].status.hash, j, r)
  {
    RunIsTraced(c, tr, evs, t);
  }
}
