/**
  The operator as an interleaved state machine over a versioned store.

  Users, the API server, any number of ApiEndpoints workers and one Krakend worker take turns; every
  API call is one step.  The store is linearizable and an update fails on a stale resource version.
  `hist` keeps the store after every committed write, so a position in it is a resource version;
  `log` keeps every successful update of a partials ConfigMap.
 */
module Protocol {
  import opened ApiTypes
  import opened Sequences
  import opened GatewayCompiler
  import opened Admission

  /** Value of the endpoints key: what the chart rendered, or what the reconciler marshalled. */
  datatype Data = Template(text: string) | Partials(endpoints: seq<GatewayEndpoint>)

  /** `data` is None when the endpoints key is missing or empty. */
  datatype ConfigMap = ConfigMap(version: nat, data: Option<Data>)

  datatype Store = Store(
    api: map<string, ApiEndpoints>, krakends: map<string, Krakend>, cms: map<string, ConfigMap>)

  /**
    `hash` stands for hashstructure.Hash printed in hex, which is never empty, and `marshal` for
    json.Marshal, which tells different endpoint lists apart and starts with a bracket.  `everyWriteCounts`
    says whether an update that leaves the text as it was still gets a new resource version.
   */
  datatype Config = Config(
    ns: string, hash: Spec -> string, marshal: seq<GatewayEndpoint> -> string, syncInterval: int,
    everyWriteCounts: bool)

  ghost predicate ConfigOk(c: Config) {
    && (forall spec :: c.hash(spec) != "")
    && (forall a, b :: c.marshal(a) == c.marshal(b) ==> a == b)
    && (forall a :: c.marshal(a) != "" && c.marshal(a)[0] == '[')
  }

  /** The stored text is `out`, marshalled; the chart may have rendered just that. */
  predicate Reads(c: Config, data: Option<Data>, out: seq<GatewayEndpoint>) {
    match data
    case None => false
    case Some(Template(text)) => text == c.marshal(out)
    case Some(Partials(endpoints)) => c.marshal(endpoints) == c.marshal(out)
  }

  const PARTIALS_SUFFIX := "-partials"

  function CmName(krakend: string): string {
    krakend + "-krakend" + PARTIALS_SUFFIX
  }

  predicate IsPartials(name: string) {
    HasSuffix(name, PARTIALS_SUFFIX)
  }

  predicate NeedsSync(c: Config, timestamp: int, now: int) {
    timestamp < now - c.syncInterval
  }

  /** The reconciler's own liveness filter over a listing. */
  function FilterLive(items: seq<ApiEndpoints>): seq<ApiEndpoints> {
    if items == [] then []
    else
      var last := items[|items| - 1];
      FilterLive(items[..|items| - 1]) + (if last.deleting then [] else [last])
  }

  // ----- workers -----

  datatype Job = Deletion(e: ApiEndpoints, readRev: nat) | Sync(name: string, hash: string)

  /** Why a finalizer may go: the named Krakend did not exist at a revision, or a log entry covers it. */
  datatype Clearance = KrakendAbsent(at: nat) | Written(index: nat)

  /** Position of an ApiEndpoints worker, named after the last API call it made. */
  datatype Pc =
    | Idle
    | Fetched(job: Job, kname: string)
    | HaveKrakend(job: Job, k: Krakend)
    | HaveConfigMap(job: Job, k: Krakend, cm: ConfigMap, cmRev: nat)
    | HaveList(job: Job, k: Krakend, cm: ConfigMap, cmRev: nat, listRev: nat,
               items: seq<ApiEndpoints>, out: seq<GatewayEndpoint>)
    | Cleared(e: ApiEndpoints, readRev: nat, why: Clearance)
    | Wrote(name: string, hash: string, k: Krakend)
    | Claiming(name: string, hash: string, base: ApiEndpoints, k: Krakend)
    | Claimed(name: string, hash: string)
    | Recording(name: string, hash: string, base: ApiEndpoints)

  function JobKey(job: Job): string {
    match job
    case Deletion(e, _) => e.name
    case Sync(name, _) => name
  }

  /** The resource a busy worker handles. */
  function Key(pc: Pc): Option<string> {
    match pc
    case Idle => None
    case Fetched(job, _) => Some(JobKey(job))
    case HaveKrakend(job, _) => Some(JobKey(job))
    case HaveConfigMap(job, _, _, _) => Some(JobKey(job))
    case HaveList(job, _, _, _, _, _, _) => Some(JobKey(job))
    case Cleared(e, _, _) => Some(e.name)
    case Wrote(name, _, _) => Some(name)
    case Claiming(name, _, _, _) => Some(name)
    case Claimed(name, _) => Some(name)
    case Recording(name, _, _) => Some(name)
  }

  /** A rendered chart resource; `data` is its endpoints key when it is a ConfigMap. */
  datatype Rendered = Rendered(kind: string, name: string, data: Option<string>)

  datatype KPc =
    | KIdle
    | KNext(rest: seq<Rendered>)
    | KCreating(r: Rendered, rest: seq<Rendered>)
    | KExisting(r: Rendered, rest: seq<Rendered>)
    | KUpdating(r: Rendered, rest: seq<Rendered>, version: nat)

  /** A successful update of a partials ConfigMap from the listing taken at `listRev`. */
  datatype Write = Write(
    cm: string, k: Krakend, listRev: nat, commitRev: nat,
    items: seq<ApiEndpoints>, endpoints: seq<GatewayEndpoint>, effective: bool)

  datatype State = State(
    hist: seq<Store>, log: seq<Write>, clock: int, workers: map<nat, Pc>, kworker: KPc)

  function Cur(s: State): Store
    requires s.hist != []
  {
    s.hist[|s.hist| - 1]
  }

  function At(s: State, w: nat): Pc {
    if w in s.workers then s.workers[w] else Idle
  }

  datatype Event =
    // users, garbage collection, time
    | UserCreate(name: string, spec: Spec, finalizers: set<string>, owners: seq<OwnerRef>)
    | UserUpdate(name: string, spec: Spec, finalizers: set<string>, owners: seq<OwnerRef>)
    | UserDelete(name: string)
    | PutKrakend(k: Krakend)
    | DeleteKrakend(name: string)
    | PutConfigMap(name: string, data: Option<Data>)
    | DeleteConfigMap(name: string)
    | Tick(delta: nat)
    // ApiEndpoints workers
    | Begin(w: nat, name: string)
    | GetKrakend(w: nat)
    | GetConfigMap(w: nat)
    | ListEndpoints(w: nat, listed: seq<ApiEndpoints>)
    | UpdateConfigMap(w: nat)
    | RemoveFinalizer(w: nat)
    | Refetch(w: nat)
    | UpdateEndpoints(w: nat)
    | RefetchAgain(w: nat)
    | UpdateStatus(w: nat)
    | Fail(w: nat)
    // the Krakend worker
    | KBegin(resources: seq<Rendered>)
    | KGet
    | KCreate
    | KGetExisting
    | KUpdate
    | KStop

  // ----- API server -----

  function Commit(s: State, st: Store): State {
    s.(hist := s.hist + [st])
  }

  /** Stores `e` under its name with a fresh version; a deleting object without finalizers is gone. */
  function PutApi(st: Store, e: ApiEndpoints, rev: nat): Store {
    if e.deleting && e.finalizers == {} then st.(api := st.api - {e.name})
    else st.(api := st.api[e.name := e.(version := rev)])
  }

  function PutCm(st: Store, name: string, data: Option<Data>, rev: nat): Store {
    st.(cms := st.cms[name := ConfigMap(rev, data)])
  }

  /** An update of the main resource: finalizers cannot grow on a deleting object. */
  predicate UpdateAllowed(cur: ApiEndpoints, finalizers: set<string>) {
    cur.deleting ==> finalizers <= cur.finalizers
  }

  function Claim(base: ApiEndpoints, k: Krakend): ApiEndpoints {
    base.(finalizers := base.finalizers + {KRAKEND_FINALIZER},
          owners := if base.owners == [] then [OwnerRef(k.name, k.uid)] else base.owners)
  }

  // ----- enabledness -----

  ghost predicate Enabled(c: Config, s: State, ev: Event) {
    s.hist != [] &&
    var st := Cur(s);
    match ev
    case UserCreate(n, spec, fs, owners) =>
      && n !in st.api && KRAKEND_FINALIZER !in fs
      && Admitted(c.ns, st.krakends, st.api, NewEndpoints(s, n, spec, fs, owners))
    case UserUpdate(n, spec, fs, owners) =>
      && n in st.api && UpdateAllowed(st.api[n], fs)
      && (KRAKEND_FINALIZER in fs <==> KRAKEND_FINALIZER in st.api[n].finalizers)
      && Admitted(c.ns, st.krakends, st.api,
                  st.api[n].(spec := spec, finalizers := fs, owners := owners))
    case UserDelete(n) => n in st.api
    case PutKrakend(k) => true
    case DeleteKrakend(n) => true
    case PutConfigMap(n, _) => !IsPartials(n)
    case DeleteConfigMap(n) => n in st.cms
    case Tick(_) => true
    case Begin(w, n) => At(s, w).Idle? && forall w' :: Key(At(s, w')) != Some(n)
    case GetKrakend(w) => At(s, w).Fetched?
    case GetConfigMap(w) => At(s, w).HaveKrakend?
    case ListEndpoints(w, listed) => At(s, w).HaveConfigMap? && Enumerates(st.api, listed)
    case UpdateConfigMap(w) => At(s, w).HaveList?
    case RemoveFinalizer(w) => At(s, w).Cleared?
    case Refetch(w) => At(s, w).Wrote?
    case UpdateEndpoints(w) => At(s, w).Claiming?
    case RefetchAgain(w) => At(s, w).Claimed?
    case UpdateStatus(w) => At(s, w).Recording?
    case Fail(w) => true
    case KBegin(rs) => s.kworker.KIdle?
    case KGet => s.kworker.KNext? && s.kworker.rest != []
    case KCreate => s.kworker.KCreating?
    case KGetExisting => s.kworker.KExisting?
    case KUpdate => s.kworker.KUpdating?
    case KStop => true
  }

  function NewEndpoints(s: State, n: string, spec: Spec, fs: set<string>, owners: seq<OwnerRef>): ApiEndpoints {
    ApiEndpoints(n, |s.hist|, |s.hist|, false, fs, owners, spec, Status(0, ""))
  }

  // ----- effects -----

  function Move(s: State, w: nat, pc: Pc): State {
    s.(workers := s.workers[w := pc])
  }

  /** Reconcile's first read and the decisions taken on it. */
  function AfterGet(c: Config, s: State, n: string): Pc
    requires s.hist != []
  {
    var api := Cur(s).api;
    if n !in api then Idle
    else
      var e := api[n];
      var kname := KrakendName(c.ns, e.spec);
      if e.deleting then Fetched(Deletion(e, |s.hist| - 1), kname)
      else
        var hash := c.hash(e.spec);
        if e.status.hash == hash && !NeedsSync(c, e.status.timestamp, s.clock) then Idle
        else Fetched(Sync(n, hash), kname)
  }

  function AfterGetKrakend(s: State, pc: Pc): Pc
    requires s.hist != [] && pc.Fetched?
  {
    var ks := Cur(s).krakends;
    if pc.kname in ks then HaveKrakend(pc.job, ks[pc.kname])
    else match pc.job
      case Deletion(e, readRev) => Cleared(e, readRev, KrakendAbsent(|s.hist| - 1))
      case Sync(_, _) => Idle
  }

  function AfterGetConfigMap(s: State, pc: Pc): Pc
    requires s.hist != [] && pc.HaveKrakend?
  {
    var cms, n := Cur(s).cms, CmName(pc.k.name);
    if n in cms && cms[n].data.Some? then HaveConfigMap(pc.job, pc.k, cms[n], |s.hist| - 1) else Idle
  }

  function AfterList(s: State, pc: Pc, listed: seq<ApiEndpoints>): Pc
    requires s.hist != [] && pc.HaveConfigMap?
  {
    var items := FilterLive(listed);
    match Compile(pc.k, items)
    case None => Idle
    case Some(out) => HaveList(pc.job, pc.k, pc.cm, pc.cmRev, |s.hist| - 1, items, out)
  }

  /** The optimistic write: it goes through only if the ConfigMap still has the version read before the list. */
  function DoUpdateConfigMap(c: Config, s: State, w: nat): State
    requires s.hist != [] && At(s, w).HaveList?
  {
    var pc, st := At(s, w), Cur(s);
    var n, data := CmName(pc.k.name), Some(Partials(pc.out));
    if n in st.cms && st.cms[n].version == pc.cm.version then
      var effective := c.everyWriteCounts || !Reads(c, st.cms[n].data, pc.out);
      var next := match pc.job
        case Deletion(e, readRev) => Cleared(e, readRev, Written(|s.log|))
        case Sync(name, hash) => Wrote(name, hash, pc.k);
      var s1 := if effective then Commit(s, PutCm(st, n, data, |s.hist|)) else s;
      var entry := Write(n, pc.k, pc.listRev, |s1.hist| - 1, pc.items, pc.out, effective);
      Move(s1.(log := s.log + [entry]), w, next)
    else Move(s, w, Idle)
  }

  function DoRemoveFinalizer(s: State, w: nat): State
    requires s.hist != [] && At(s, w).Cleared?
  {
    var e, st := At(s, w).e, Cur(s);
    if KRAKEND_FINALIZER in e.finalizers && e.name in st.api && st.api[e.name].version == e.version then
      Move(Commit(s, PutApi(st, e.(finalizers := e.finalizers - {KRAKEND_FINALIZER}), |s.hist|)), w, Idle)
    else Move(s, w, Idle)
  }

  function AfterRefetch(s: State, pc: Pc): Pc
    requires s.hist != [] && pc.Wrote?
  {
    var api := Cur(s).api;
    if pc.name !in api then Idle
    else
      var e := api[pc.name];
      if KRAKEND_FINALIZER in e.finalizers && e.owners != [] then Claimed(pc.name, pc.hash)
      else Claiming(pc.name, pc.hash, e, pc.k)
  }

  ghost function DoUpdateEndpoints(c: Config, s: State, w: nat): State
    requires s.hist != [] && At(s, w).Claiming?
  {
    var pc, st := At(s, w), Cur(s);
    var e := Claim(pc.base, pc.k);
    if && pc.name in st.api && st.api[pc.name].version == pc.base.version
       && UpdateAllowed(st.api[pc.name], e.finalizers)
       && Admitted(c.ns, st.krakends, st.api, e)
    then Move(Commit(s, PutApi(st, e, |s.hist|)), w, Claimed(pc.name, pc.hash))
    else Move(s, w, Idle)
  }

  function DoUpdateStatus(s: State, w: nat): State
    requires s.hist != [] && At(s, w).Recording?
  {
    var pc, st := At(s, w), Cur(s);
    if pc.name in st.api && st.api[pc.name].version == pc.base.version then
      Move(Commit(s, PutApi(st, pc.base.(status := Status(s.clock, pc.hash)), |s.hist|)), w, Idle)
    else Move(s, w, Idle)
  }

  function Text(r: Rendered): Option<Data> {
    match r.data
    case None => None
    case Some(t) => if t == "" then None else Some(Template(t))
  }

  function AfterKGet(s: State): KPc
    requires s.hist != [] && s.kworker.KNext? && s.kworker.rest != []
  {
    var r, rest := s.kworker.rest[0], s.kworker.rest[1..];
    if r.kind != "ConfigMap" then KNext(rest)
    else if r.name in Cur(s).cms && IsPartials(r.name) then KNext(rest)
    else KCreating(r, rest)
  }

  function DoKCreate(s: State): State
    requires s.hist != [] && s.kworker.KCreating?
  {
    var r, rest, st := s.kworker.r, s.kworker.rest, Cur(s);
    if r.name in st.cms then s.(kworker := KExisting(r, rest))
    else Commit(s, PutCm(st, r.name, Text(r), |s.hist|)).(kworker := KNext(rest))
  }

  function AfterKGetExisting(s: State): KPc
    requires s.hist != [] && s.kworker.KExisting?
  {
    var r, rest, cms := s.kworker.r, s.kworker.rest, Cur(s).cms;
    if r.name in cms then KUpdating(r, rest, cms[r.name].version) else KNext(rest)
  }

  function DoKUpdate(s: State): State
    requires s.hist != [] && s.kworker.KUpdating?
  {
    var r, rest, st := s.kworker.r, s.kworker.rest, Cur(s);
    if r.name in st.cms && st.cms[r.name].version == s.kworker.version then
      Commit(s, PutCm(st, r.name, Text(r), |s.hist|)).(kworker := KNext(rest))
    else s.(kworker := KNext(rest))
  }

  ghost function Apply(c: Config, s: State, ev: Event): State
    requires Enabled(c, s, ev)
  {
    var st, rev := Cur(s), |s.hist|;
    match ev
    case UserCreate(n, spec, fs, owners) => Commit(s, PutApi(st, NewEndpoints(s, n, spec, fs, owners), rev))
    case UserUpdate(n, spec, fs, owners) =>
      Commit(s, PutApi(st, st.api[n].(spec := spec, finalizers := fs, owners := owners), rev))
    case UserDelete(n) => Commit(s, PutApi(st, st.api[n].(deleting := true), rev))
    case PutKrakend(k) => Commit(s, st.(krakends := st.krakends[k.name := k]))
    case DeleteKrakend(n) => Commit(s, st.(krakends := st.krakends - {n}))
    case PutConfigMap(n, data) => Commit(s, PutCm(st, n, data, rev))
    case DeleteConfigMap(n) => Commit(s, st.(cms := st.cms - {n}))
    case Tick(d) => s.(clock := s.clock + d)
    case Begin(w, n) => Move(s, w, AfterGet(c, s, n))
    case GetKrakend(w) => Move(s, w, AfterGetKrakend(s, At(s, w)))
    case GetConfigMap(w) => Move(s, w, AfterGetConfigMap(s, At(s, w)))
    case ListEndpoints(w, listed) => Move(s, w, AfterList(s, At(s, w), listed))
    case UpdateConfigMap(w) => DoUpdateConfigMap(c, s, w)
    case RemoveFinalizer(w) => DoRemoveFinalizer(s, w)
    case Refetch(w) => Move(s, w, AfterRefetch(s, At(s, w)))
    case UpdateEndpoints(w) => DoUpdateEndpoints(c, s, w)
    case RefetchAgain(w) =>
      var name := At(s, w).name;
      Move(s, w, if name in st.api then Recording(name, At(s, w).hash, st.api[name]) else Idle)
    case UpdateStatus(w) => DoUpdateStatus(s, w)
    case Fail(w) => Move(s, w, Idle)
    case KBegin(rs) => s.(kworker := KNext(rs))
    case KGet => s.(kworker := AfterKGet(s))
    case KCreate => DoKCreate(s)
    case KGetExisting => s.(kworker := AfterKGetExisting(s))
    case KUpdate => DoKUpdate(s)
    case KStop => s.(kworker := KIdle)
  }

  // ----- runs -----

  ghost predicate Init(s: State) {
    && s.hist == [Store(map[], map[], map[])] && s.log == []
    && s.workers == map[] && s.kworker == KIdle
  }

  ghost predicate StepAt(c: Config, tr: seq<State>, evs: seq<Event>, i: nat)
    requires |tr| == |evs| + 1 && i < |evs|
  {
    Enabled(c, tr[i], evs[i]) && tr[i + 1] == Apply(c, tr[i], evs[i])
  }

  ghost predicate Steps(c: Config, tr: seq<State>, evs: seq<Event>) {
    |tr| == |evs| + 1 && forall i :: 0 <= i < |evs| ==> StepAt(c, tr, evs, i)
  }

  /** A run from an empty namespace. */
  ghost predicate Run(c: Config, tr: seq<State>, evs: seq<Event>) {
    ConfigOk(c) && Steps(c, tr, evs) && Init(tr[0])
  }
}
