/**
  The reconcile loop without outside interference: one worker, no user writes, no failures and a clock
  that stays inside one sync window.  Every write to a resource raises a watch event for it.
 */
module Quiescence {
  import opened ApiTypes
  import opened Sequences
  import opened GatewayCompiler
  import opened Admission
  import opened Protocol
  import opened ProtocolInvariant
  import opened Reconciler

  // ----- stores on which reconciling cannot fail -----

  ghost predicate Healthy(c: Config, st: Store) {
    && NamesMatch(st.api) && UniqueLive(st.api)
    && (forall k :: k in st.krakends ==>
          && st.krakends[k].name == k
          && CmName(k) in st.cms && st.cms[CmName(k)].data.Some?)
    && (forall n :: LiveIn(st.api, n) ==> KrakendName(c.ns, st.api[n].spec) in st.krakends)
    && (forall n, k :: LiveIn(st.api, n) && k in st.krakends ==>
          ProviderNamed(st.krakends[k], st.api[n].spec.auth.name))
  }

  /** Same live resources with the same specs, same Krakends. */
  ghost predicate SameSpecs(st: Store, st': Store) {
    && st'.krakends == st.krakends
    && (forall n :: LiveIn(st.api, n) <==> LiveIn(st'.api, n))
    && (forall n :: LiveIn(st.api, n) ==> st'.api[n].spec == st.api[n].spec)
  }

  lemma {:induction false} ListingCompiles(c: Config, st: Store, k: string, listed: seq<ApiEndpoints>)
    requires Healthy(c, st) && k in st.krakends && Enumerates(st.api, listed)
    ensures Compile(st.krakends[k], FilterLive(listed)).Some?
  {
    FilteredListing(st.api, listed);
    var items := FilterLive(listed);
    forall i | 0 <= i < |items| ensures ProviderNamed(st.krakends[k], items[i].spec.auth.name) {
      assert LiveOf(st.api)[items[i].name] == items[i];
      assert LiveIn(st.api, items[i].name);
    }
    CompileMeaning(st.krakends[k], items);
  }

  /** On a healthy store the ConfigMap update succeeds and touches nothing but that ConfigMap. */
  lemma {:induction false} ConfigMapUpdateSucceeds(c: Config, v: Versioned, k: string, listed: seq<ApiEndpoints>)
    requires Healthy(c, v.st) && k in v.st.krakends && Enumerates(v.st.api, listed)
    ensures var u := ConfigMapUpdated(c, v, v.st.krakends[k], listed);
            && u.Some? && u.value.st.api == v.st.api && u.value.st.krakends == v.st.krakends
            && Healthy(c, u.value.st) && SameSpecs(v.st, u.value.st)
            && (forall n :: n != CmName(k) && n in u.value.st.cms ==> n in v.st.cms && u.value.st.cms[n] == v.st.cms[n])
            && u.value.st.cms.Keys == v.st.cms.Keys
            && Reads(c, u.value.st.cms[CmName(k)].data, Compile(v.st.krakends[k], FilterLive(listed)).value)
  {
    ListingCompiles(c, v.st, k, listed);
  }

  /** Health depends on the live specs only. */
  lemma SameSpecsHealthy(c: Config, st: Store, st': Store)
    requires Healthy(c, st) && SameSpecs(st, st') && NamesMatch(st'.api) && st'.cms == st.cms
    ensures Healthy(c, st')
  {
  }

  /** Rewriting bookkeeping fields of one resource keeps the store healthy. */
  lemma BookkeepingHealthy(c: Config, v: Versioned, e: ApiEndpoints)
    requires Healthy(c, v.st) && e.name in v.st.api
    requires e.spec == v.st.api[e.name].spec && e.deleting == v.st.api[e.name].deleting
    ensures Healthy(c, PutApiV(v, e).st) && SameSpecs(v.st, PutApiV(v, e).st)
  {
    SameSpecsHealthy(c, v.st, PutApiV(v, e).st);
  }

  lemma ClaimAdmitted(c: Config, st: Store, n: string, k: Krakend)
    requires Healthy(c, st) && LiveIn(st.api, n)
    ensures Admitted(c.ns, st.krakends, st.api, Claim(st.api[n], k))
  {
    var e := Claim(st.api[n], k);
    var api' := st.api[e.name := e];
    assert forall m :: LiveIn(st.api, m) <==> LiveIn(api', m);
    assert forall m :: LiveIn(st.api, m) ==> api'[m].spec == st.api[m].spec;
  }

  // ----- what still has to be done -----

  /** The resource wants a write of its own, at the latest when the clock reads `until`. */
  ghost predicate Pending(c: Config, api: map<string, ApiEndpoints>, until: int, n: string) {
    n in api &&
    if api[n].deleting then KRAKEND_FINALIZER in api[n].finalizers
    else !Skips(c, api[n], until)
  }

  ghost function PendingSet(c: Config, api: map<string, ApiEndpoints>, until: int): set<string> {
    set n | n in api && Pending(c, api, until, n)
  }

  /** The same without the clock: a changed spec, or a finalizer to release. */
  ghost predicate Stale(c: Config, api: map<string, ApiEndpoints>, n: string) {
    n in api &&
    if api[n].deleting then KRAKEND_FINALIZER in api[n].finalizers
    else api[n].status.hash != c.hash(api[n].spec)
  }

  ghost predicate OthersKept(api: map<string, ApiEndpoints>, api': map<string, ApiEndpoints>, n: string) {
    forall m :: m != n ==> (m in api <==> m in api') && (m in api ==> api'[m] == api[m])
  }

  /** Everything one reconcile does on a healthy store. */
  ghost predicate Settles(c: Config, v: Versioned, o: Outcome, clock: int, until: int, n: string) {
    && o.ok && o.apiWrites <= 2
    && Healthy(c, o.after.st) && SameSpecs(v.st, o.after.st)
    && OthersKept(v.st.api, o.after.st.api, n)
    && !Stale(c, o.after.st.api, n)
    && (o.apiWrites == 0 ==> o.after.st.api == v.st.api)
    && (o.apiWrites > 0 ==> Pending(c, v.st.api, until, n) && !Pending(c, o.after.st.api, until, n))
  }

  ghost predicate InWindow(c: Config, clock: int, until: int) {
    clock <= until <= clock + c.syncInterval
  }

  /** Releasing the finalizer of a deleting resource, if it still has it, settles it. */
  lemma ReleaseSettles(c: Config, u: Versioned, until: int, n: string)
    requires Healthy(c, u.st) && n in u.st.api && u.st.api[n].deleting && KRAKEND_FINALIZER in u.st.api[n].finalizers
    ensures var after := PutApiV(u, u.st.api[n].(finalizers := u.st.api[n].finalizers - {KRAKEND_FINALIZER}));
            && Healthy(c, after.st) && SameSpecs(u.st, after.st) && OthersKept(u.st.api, after.st.api, n)
            && !Stale(c, after.st.api, n) && !Pending(c, after.st.api, until, n)
  {
    BookkeepingHealthy(c, u, u.st.api[n].(finalizers := u.st.api[n].finalizers - {KRAKEND_FINALIZER}));
  }

  lemma DeletionSettles(c: Config, v: Versioned, clock: int, until: int, n: string, listed: seq<ApiEndpoints>)
    requires Healthy(c, v.st) && Enumerates(v.st.api, listed) && n in v.st.api && v.st.api[n].deleting
    ensures Settles(c, v, DeletionReconciled(c, v, v.st.api[n], listed), clock, until, n)
  {
    var e := v.st.api[n];
    var kname := KrakendName(c.ns, e.spec);
    var u := v;
    if kname in v.st.krakends {
      ConfigMapUpdateSucceeds(c, v, kname, listed);
      u := ConfigMapUpdated(c, v, v.st.krakends[kname], listed).value;
    }
    if KRAKEND_FINALIZER in e.finalizers {
      ReleaseSettles(c, u, until, n);
      SameSpecsTransitive(v.st, u.st, DeletionReconciled(c, v, e, listed).after.st);
    }
  }

  /** The finalizer and owner update succeeds and changes nothing else. */
  lemma ClaimSettles(c: Config, u: Versioned, n: string, k: Krakend)
    requires Healthy(c, u.st) && LiveIn(u.st.api, n)
    ensures var claimed := ResourceClaimed(c, u, u.st.api[n], k);
            && claimed.Some? && Healthy(c, claimed.value.st) && SameSpecs(u.st, claimed.value.st)
            && OthersKept(u.st.api, claimed.value.st.api, n)
            && LiveIn(claimed.value.st.api, n) && claimed.value.st.api[n].name == n
  {
    ClaimAdmitted(c, u.st, n, k);
    BookkeepingHealthy(c, u, Claim(u.st.api[n], k));
  }

  /** The status write records the hash of the current spec at a time inside the window. */
  lemma RecordSettles(c: Config, u: Versioned, clock: int, until: int, n: string, hash: string)
    requires Healthy(c, u.st) && LiveIn(u.st.api, n) && InWindow(c, clock, until)
    requires hash == c.hash(u.st.api[n].spec)
    ensures var after := PutApiV(u, u.st.api[n].(status := Status(clock, hash)));
            && Healthy(c, after.st) && SameSpecs(u.st, after.st) && OthersKept(u.st.api, after.st.api, n)
            && !Stale(c, after.st.api, n) && !Pending(c, after.st.api, until, n)
  {
    BookkeepingHealthy(c, u, u.st.api[n].(status := Status(clock, hash)));
  }

  lemma SameSpecsTransitive(a: Store, b: Store, d: Store)
    requires SameSpecs(a, b) && SameSpecs(b, d)
    ensures SameSpecs(a, d)
  {
  }

  lemma SyncSettles(c: Config, v: Versioned, clock: int, until: int, n: string, listed: seq<ApiEndpoints>)
    requires Healthy(c, v.st) && Enumerates(v.st.api, listed) && LiveIn(v.st.api, n)
    requires InWindow(c, clock, until) && !Skips(c, v.st.api[n], clock)
    ensures Settles(c, v, SyncReconciled(c, v, v.st.api[n], clock, listed), clock, until, n)
  {
    var e := v.st.api[n];
    var kname := KrakendName(c.ns, e.spec);
    var k := v.st.krakends[kname];
    ConfigMapUpdateSucceeds(c, v, kname, listed);
    var u := ConfigMapUpdated(c, v, k, listed).value;
    ClaimSettles(c, u, n, k);
    var claimed := ResourceClaimed(c, u, e, k).value;
    var hash := c.hash(e.spec);
    RecordSettles(c, claimed, clock, until, n, hash);
    SameSpecsTransitive(v.st, u.st, claimed.st);
    var after := PutApiV(claimed, claimed.st.api[n].(status := Status(clock, hash)));
    SameSpecsTransitive(v.st, claimed.st, after.st);
    assert OthersKept(v.st.api, after.st.api, n);
  }

  lemma ReconcileSettles(c: Config, v: Versioned, clock: int, until: int, n: string, listed: seq<ApiEndpoints>)
    requires Healthy(c, v.st) && Enumerates(v.st.api, listed) && InWindow(c, clock, until)
    ensures Settles(c, v, Reconciled(c, v, clock, n, listed), clock, until, n)
  {
    if n in v.st.api {
      if v.st.api[n].deleting {
        DeletionSettles(c, v, clock, until, n, listed);
      } else if !Skips(c, v.st.api[n], clock) {
        SyncSettles(c, v, clock, until, n, listed);
      }
    }
  }

  // ----- what exactly happens to the reconciled resource -----

  /** A synchronization adds the finalizer and a missing owner, records hash and time, and changes nothing else. */
  lemma SyncEffect(c: Config, v: Versioned, clock: int, n: string, listed: seq<ApiEndpoints>)
    requires Healthy(c, v.st) && Enumerates(v.st.api, listed) && LiveIn(v.st.api, n) && !Skips(c, v.st.api[n], clock)
    ensures var e, api' := v.st.api[n], Reconciled(c, v, clock, n, listed).after.st.api;
            var k := KrakendName(c.ns, e.spec);
            && n in api' && k in v.st.krakends && api'[n].version >= v.next
            && api'[n] == e.(version := api'[n].version, status := Status(clock, c.hash(e.spec)),
                             finalizers := e.finalizers + {KRAKEND_FINALIZER},
                             owners := if e.owners == [] then [OwnerRef(k, v.st.krakends[k].uid)] else e.owners)
  {
    var e := v.st.api[n];
    var kname := KrakendName(c.ns, e.spec);
    var k := v.st.krakends[kname];
    ConfigMapUpdateSucceeds(c, v, kname, listed);
    var u := ConfigMapUpdated(c, v, k, listed).value;
    ClaimSettles(c, u, n, k);
    assert KRAKEND_FINALIZER in e.finalizers ==> e.finalizers + {KRAKEND_FINALIZER} == e.finalizers;
  }

  /** A deletion takes the operator's finalizer only; the resource goes exactly when that was the last one. */
  lemma DeletionEffect(c: Config, v: Versioned, clock: int, n: string, listed: seq<ApiEndpoints>)
    requires Healthy(c, v.st) && Enumerates(v.st.api, listed) && n in v.st.api && v.st.api[n].deleting
    ensures var e, api' := v.st.api[n], Reconciled(c, v, clock, n, listed).after.st.api;
            && (n !in api' <==> e.finalizers == {KRAKEND_FINALIZER})
            && (n in api' ==>
                  api'[n] == e.(version := api'[n].version, finalizers := e.finalizers - {KRAKEND_FINALIZER}))
  {
    var e := v.st.api[n];
    var kname := KrakendName(c.ns, e.spec);
    if kname in v.st.krakends {
      ConfigMapUpdateSucceeds(c, v, kname, listed);
    }
    if KRAKEND_FINALIZER in e.finalizers {
      assert e.finalizers - {KRAKEND_FINALIZER} == {} <==> e.finalizers == {KRAKEND_FINALIZER};
    } else {
      assert e.finalizers - {KRAKEND_FINALIZER} == e.finalizers;
    }
  }

  // ----- the event loop -----

  datatype Loop = Loop(v: Versioned, clock: int, events: multiset<string>)

  /** One turn: an event is taken and reconciled at some time, or merged with another event for the same name. */
  datatype Turn = Handle(n: string, clock: int, listed: seq<ApiEndpoints>) | Merge(n: string)

  ghost predicate TurnEnabled(l: Loop, until: int, t: Turn) {
    match t
    case Handle(n, clock, listed) =>
      n in l.events && l.clock <= clock <= until && Enumerates(l.v.st.api, listed)
    case Merge(n) => l.events[n] >= 2
  }

  ghost function TurnResult(c: Config, l: Loop, t: Turn): Loop {
    match t
    case Handle(n, clock, listed) =>
      var o := Reconciled(c, l.v, clock, n, listed);
      Loop(o.after, clock, (l.events - multiset{n}) + multiset{}[n := o.apiWrites])
    case Merge(n) => l.(events := l.events - multiset{n})
  }

  ghost predicate TurnAt(c: Config, until: int, ls: seq<Loop>, ts: seq<Turn>, i: nat)
    requires |ls| == |ts| + 1 && i < |ts|
  {
    TurnEnabled(ls[i], until, ts[i]) && ls[i + 1] == TurnResult(c, ls[i], ts[i])
  }

  /** The turns of a run, with all its states; the clock never leaves the window that ends at `until`. */
  ghost predicate LoopRun(c: Config, until: int, ls: seq<Loop>, ts: seq<Turn>) {
    && |ls| == |ts| + 1 && InWindow(c, ls[0].clock, until) && Healthy(c, ls[0].v.st)
    && forall i :: 0 <= i < |ts| ==> TurnAt(c, until, ls, ts, i)
  }

  ghost function Measure(c: Config, until: int, l: Loop): nat {
    3 * |PendingSet(c, l.v.st.api, until)| + |l.events|
  }

  lemma TurnKeepsOk(c: Config, until: int, start: int, l: Loop, t: Turn)
    requires start <= l.clock <= until <= start + c.syncInterval && Healthy(c, l.v.st)
    requires TurnEnabled(l, until, t)
    ensures var l' := TurnResult(c, l, t);
            && start <= l'.clock <= until && Healthy(c, l'.v.st) && SameSpecs(l.v.st, l'.v.st)
  {
    if t.Handle? {
      ReconcileSettles(c, l.v, t.clock, until, t.n, t.listed);
    }
  }

  /** Every turn makes the measure smaller. */
  lemma TurnDecreases(c: Config, until: int, start: int, l: Loop, t: Turn)
    requires start <= l.clock <= until <= start + c.syncInterval && Healthy(c, l.v.st)
    requires TurnEnabled(l, until, t)
    ensures Measure(c, until, TurnResult(c, l, t)) < Measure(c, until, l)
  {
    var l' := TurnResult(c, l, t);
    match t
    case Merge(n) =>
    case Handle(n, clock, listed) =>
      ReconcileSettles(c, l.v, clock, until, n, listed);
      var o := Reconciled(c, l.v, clock, n, listed);
      var p, p' := PendingSet(c, l.v.st.api, until), PendingSet(c, l'.v.st.api, until);
      EventCount(l.events, n, o.apiWrites);
      if o.apiWrites == 0 {
        assert p' == p;
      } else {
        assert p' == p - {n} by {
          forall m ensures m in p' <==> m in p - {n} {
            if m != n {
              assert m in l.v.st.api <==> m in l'.v.st.api;
            }
          }
        }
        assert |p'| == |p| - 1;
      }
  }

  ghost predicate StaleAreQueued(c: Config, l: Loop) {
    forall n :: Stale(c, l.v.st.api, n) ==> n in l.events
  }

  lemma TurnKeepsQueued(c: Config, until: int, start: int, l: Loop, t: Turn)
    requires start <= l.clock <= until <= start + c.syncInterval && Healthy(c, l.v.st)
    requires TurnEnabled(l, until, t)
    ensures StaleAreQueued(c, l) ==> StaleAreQueued(c, TurnResult(c, l, t))
  {
    if t.Handle? {
      ReconcileSettles(c, l.v, t.clock, until, t.n, t.listed);
    }
  }

  lemma EventCount(events: multiset<string>, n: string, k: nat)
    requires n in events
    ensures |(events - multiset{n}) + multiset{}[n := k]| == |events| - 1 + k
  {
    assert |multiset{}[n := k]| == k by { RepeatSize(n, k); }
  }

  lemma {:induction false} RepeatSize(n: string, k: nat)
    ensures |multiset{}[n := k]| == k
  {
    if k > 0 {
      RepeatSize(n, k - 1);
      assert multiset{}[n := k] == multiset{}[n := k - 1] + multiset{n};
    } else {
      assert multiset{}[n := 0] == multiset{};
    }
  }

  /** All along a run the store stays healthy with the specs it started with. */
  lemma {:induction false} LoopInvariant(c: Config, until: int, ls: seq<Loop>, ts: seq<Turn>, i: nat)
    requires LoopRun(c, until, ls, ts) && i < |ls|
    ensures ls[0].clock <= ls[i].clock <= until && Healthy(c, ls[i].v.st) && SameSpecs(ls[0].v.st, ls[i].v.st)
  {
    if i > 0 {
      LoopInvariant(c, until, ls, ts, i - 1);
      assert TurnAt(c, until, ls, ts, i - 1);
      TurnKeepsOk(c, until, ls[0].clock, ls[i - 1], ts[i - 1]);
    }
  }

  /** What every turn of a run does to the work left. */
  ghost predicate Progress(c: Config, until: int, l: Loop, l': Loop) {
    && Measure(c, until, l') < Measure(c, until, l)
    && (forall n :: Pending(c, l'.v.st.api, until, n) ==> Pending(c, l.v.st.api, until, n))
    && (StaleAreQueued(c, l) ==> StaleAreQueued(c, l'))
  }

  lemma TurnProgress(c: Config, until: int, start: int, l: Loop, t: Turn)
    requires start <= l.clock <= until <= start + c.syncInterval && Healthy(c, l.v.st)
    requires TurnEnabled(l, until, t)
    ensures Progress(c, until, l, TurnResult(c, l, t))
  {
    TurnDecreases(c, until, start, l, t);
    TurnKeepsQueued(c, until, start, l, t);
    forall n | !Pending(c, l.v.st.api, until, n)
      ensures !Pending(c, TurnResult(c, l, t).v.st.api, until, n)
    {
      SyncClears(c, until, start, l, t, n);
    }
  }

  lemma RunProgress(c: Config, until: int, ls: seq<Loop>, ts: seq<Turn>, i: nat)
    requires LoopRun(c, until, ls, ts) && i < |ts|
    ensures Progress(c, until, ls[i], ls[i + 1])
  {
    LoopInvariant(c, until, ls, ts, i);
    assert TurnAt(c, until, ls, ts, i);
    TurnProgress(c, until, ls[0].clock, ls[i], ts[i]);
  }

  /** The queue drains: no run is longer than the measure it starts with, and only an empty queue stops it. */
  lemma {:induction false} QueueDrains(c: Config, until: int, ls: seq<Loop>, ts: seq<Turn>, i: nat)
    requires LoopRun(c, until, ls, ts) && i < |ls|
    ensures i + Measure(c, until, ls[i]) <= Measure(c, until, ls[0])
    ensures ls[i].events != multiset{} ==> exists t :: TurnEnabled(ls[i], until, t)
  {
    LoopInvariant(c, until, ls, ts, i);
    SomeTurn(c, until, ls[i]);
    if i > 0 {
      QueueDrains(c, until, ls, ts, i - 1);
      RunProgress(c, until, ls, ts, i - 1);
    }
  }

  lemma SomeTurn(c: Config, until: int, l: Loop)
    requires Healthy(c, l.v.st) && l.clock <= until
    ensures l.events != multiset{} ==> exists t :: TurnEnabled(l, until, t)
  {
    if l.events != multiset{} {
      var n :| n in l.events;
      var listed := SomeListing(l.v.st.api);
      assert TurnEnabled(l, until, Handle(n, l.clock, listed));
    }
  }

  lemma {:induction false} SomeListing(api: map<string, ApiEndpoints>) returns (listed: seq<ApiEndpoints>)
    requires NamesMatch(api)
    ensures Enumerates(api, listed)
    decreases |api|
  {
    if api == map[] {
      listed := [];
    } else {
      var n :| n in api;
      var rest := api - {n};
      assert |rest| < |api| by { assert api == rest[n := api[n]]; }
      var front := SomeListing(rest);
      EnumeratesAppend(rest, front, api[n]);
      listed := front + [api[n]];
      assert rest[n := api[n]] == api;
    }
  }

  // ----- each resource is synchronized at most once -----

  /** Turn t runs the full synchronization of live resource n. */
  ghost predicate Synchronizes(c: Config, l: Loop, t: Turn, n: string) {
    t.Handle? && t.n == n && LiveIn(l.v.st.api, n) && !Skips(c, l.v.st.api[n], t.clock)
  }

  lemma SyncClears(c: Config, until: int, start: int, l: Loop, t: Turn, n: string)
    requires start <= l.clock <= until <= start + c.syncInterval && Healthy(c, l.v.st)
    requires TurnEnabled(l, until, t)
    ensures Synchronizes(c, l, t, n) ==> !Pending(c, TurnResult(c, l, t).v.st.api, until, n)
    ensures Synchronizes(c, l, t, n) ==> Pending(c, l.v.st.api, until, n)
    ensures !Pending(c, l.v.st.api, until, n) ==> !Pending(c, TurnResult(c, l, t).v.st.api, until, n)
  {
    if t.Handle? {
      ReconcileSettles(c, l.v, t.clock, until, t.n, t.listed);
    }
  }

  lemma SettledStays(c: Config, until: int, ls: seq<Loop>, ts: seq<Turn>, i: nat, j: nat, n: string)
    requires LoopRun(c, until, ls, ts) && i <= j < |ls| && !Pending(c, ls[i].v.st.api, until, n)
    ensures !Pending(c, ls[j].v.st.api, until, n)
  {
    var settled := seq(j - i + 1, k requires 0 <= k <= j - i => !Pending(c, ls[i + k].v.st.api, until, n));
    forall k | 0 <= k < j - i && settled[k] ensures settled[k + 1] {
      SettledNext(c, until, ls, ts, i + k, n);
    }
    Chain(settled, j - i);
  }

  lemma SettledNext(c: Config, until: int, ls: seq<Loop>, ts: seq<Turn>, i: nat, n: string)
    requires LoopRun(c, until, ls, ts) && i < |ts| && !Pending(c, ls[i].v.st.api, until, n)
    ensures !Pending(c, ls[i + 1].v.st.api, until, n)
  {
    RunProgress(c, until, ls, ts, i);
  }

  /** A live resource is synchronized at most once; the events its own writes raise are all skipped. */
  lemma SynchronizedOnce(c: Config, until: int, ls: seq<Loop>, ts: seq<Turn>, i: nat, j: nat, n: string)
    requires LoopRun(c, until, ls, ts) && i < j < |ts| && Synchronizes(c, ls[i], ts[i], n)
    ensures !Synchronizes(c, ls[j], ts[j], n)
  {
    RunSyncClears(c, until, ls, ts, i, n);
    SettledStays(c, until, ls, ts, i + 1, j, n);
    RunSyncClears(c, until, ls, ts, j, n);
  }

  lemma RunSyncClears(c: Config, until: int, ls: seq<Loop>, ts: seq<Turn>, i: nat, n: string)
    requires LoopRun(c, until, ls, ts) && i < |ts|
    ensures Synchronizes(c, ls[i], ts[i], n) ==>
              Pending(c, ls[i].v.st.api, until, n) && !Pending(c, ls[i + 1].v.st.api, until, n)
  {
    LoopInvariant(c, until, ls, ts, i);
    assert TurnAt(c, until, ls, ts, i);
    SyncClears(c, until, ls[0].clock, ls[i], ts[i], n);
  }

  // ----- each resource updates the ConfigMap at most once, unless another finalizer keeps it -----

  /** Turn t does real work for n: it updates the ConfigMap of the Krakend that n names. */
  ghost predicate Works(c: Config, l: Loop, t: Turn, n: string) {
    && t.Handle? && t.n == n && n in l.v.st.api && KrakendName(c.ns, l.v.st.api[n].spec) in l.v.st.krakends
    && (l.v.st.api[n].deleting || !Skips(c, l.v.st.api[n], t.clock))
  }

  /** A finalizer other than the operator's keeps the deleting resource n in the store. */
  ghost predicate Lingers(st: Store, n: string, spec: Spec) {
    n in st.api && st.api[n].deleting && st.api[n].spec == spec && st.api[n].finalizers != {KRAKEND_FINALIZER}
  }

  lemma TurnKeepsLingering(c: Config, until: int, start: int, l: Loop, t: Turn, n: string, spec: Spec)
    requires start <= l.clock <= until <= start + c.syncInterval && Healthy(c, l.v.st)
    requires TurnEnabled(l, until, t) && Lingers(l.v.st, n, spec)
    ensures Lingers(TurnResult(c, l, t).v.st, n, spec)
  {
    if t.Handle? {
      if t.n == n {
        DeletionEffect(c, l.v, t.clock, n, t.listed);
        assert KRAKEND_FINALIZER !in l.v.st.api[n].finalizers - {KRAKEND_FINALIZER};
      } else {
        ReconcileSettles(c, l.v, t.clock, until, t.n, t.listed);
      }
    }
  }

  lemma TurnKeepsAbsent(c: Config, until: int, start: int, l: Loop, t: Turn, n: string)
    requires start <= l.clock <= until <= start + c.syncInterval && Healthy(c, l.v.st)
    requires TurnEnabled(l, until, t) && n !in l.v.st.api
    ensures n !in TurnResult(c, l, t).v.st.api
  {
    if t.Handle? && t.n != n {
      ReconcileSettles(c, l.v, t.clock, until, t.n, t.listed);
    }
  }

  lemma LingersNext(c: Config, until: int, ls: seq<Loop>, ts: seq<Turn>, i: nat, n: string, spec: Spec)
    requires LoopRun(c, until, ls, ts) && i < |ts| && Lingers(ls[i].v.st, n, spec)
    ensures Lingers(ls[i + 1].v.st, n, spec)
  {
    LoopInvariant(c, until, ls, ts, i);
    assert TurnAt(c, until, ls, ts, i);
    TurnKeepsLingering(c, until, ls[0].clock, ls[i], ts[i], n, spec);
  }

  lemma AbsentNext(c: Config, until: int, ls: seq<Loop>, ts: seq<Turn>, i: nat, n: string)
    requires LoopRun(c, until, ls, ts) && i < |ts| && n !in ls[i].v.st.api
    ensures n !in ls[i + 1].v.st.api
  {
    LoopInvariant(c, until, ls, ts, i);
    assert TurnAt(c, until, ls, ts, i);
    TurnKeepsAbsent(c, until, ls[0].clock, ls[i], ts[i], n);
  }

  lemma LingersOn(c: Config, until: int, ls: seq<Loop>, ts: seq<Turn>, i: nat, j: nat, n: string, spec: Spec)
    requires LoopRun(c, until, ls, ts) && i <= j < |ls| && Lingers(ls[i].v.st, n, spec)
    ensures Lingers(ls[j].v.st, n, spec)
  {
    var bs := seq(j - i + 1, k requires 0 <= k <= j - i => Lingers(ls[i + k].v.st, n, spec));
    forall k | 0 <= k < j - i && bs[k] ensures bs[k + 1] {
      LingersNext(c, until, ls, ts, i + k, n, spec);
    }
    Chain(bs, j - i);
  }

  lemma AbsentStays(c: Config, until: int, ls: seq<Loop>, ts: seq<Turn>, i: nat, j: nat, n: string)
    requires LoopRun(c, until, ls, ts) && i <= j < |ls| && n !in ls[i].v.st.api
    ensures n !in ls[j].v.st.api
  {
    var bs := seq(j - i + 1, k requires 0 <= k <= j - i => n !in ls[i + k].v.st.api);
    forall k | 0 <= k < j - i && bs[k] ensures bs[k + 1] {
      AbsentNext(c, until, ls, ts, i + k, n);
    }
    Chain(bs, j - i);
  }

  lemma LiveWorksOnce(c: Config, until: int, ls: seq<Loop>, ts: seq<Turn>, i: nat, j: nat, n: string)
    requires LoopRun(c, until, ls, ts) && i < j < |ts| && Works(c, ls[i], ts[i], n) && !ls[i].v.st.api[n].deleting
    ensures !Works(c, ls[j], ts[j], n)
  {
    LoopInvariant(c, until, ls, ts, i);
    LoopInvariant(c, until, ls, ts, j);
    assert LiveIn(ls[i].v.st.api, n) && LiveIn(ls[0].v.st.api, n) && LiveIn(ls[j].v.st.api, n);
    SynchronizedOnce(c, until, ls, ts, i, j, n);
  }

  lemma LastFinalizerWorksOnce(c: Config, until: int, ls: seq<Loop>, ts: seq<Turn>, i: nat, j: nat, n: string)
    requires LoopRun(c, until, ls, ts) && i < j < |ts| && Works(c, ls[i], ts[i], n)
    requires ls[i].v.st.api[n].deleting && ls[i].v.st.api[n].finalizers == {KRAKEND_FINALIZER}
    ensures !Works(c, ls[j], ts[j], n)
  {
    LoopInvariant(c, until, ls, ts, i);
    assert TurnAt(c, until, ls, ts, i);
    DeletionEffect(c, ls[i].v, ts[i].clock, n, ts[i].listed);
    AbsentStays(c, until, ls, ts, i + 1, j, n);
  }

  lemma KeptWorksAgain(c: Config, until: int, ls: seq<Loop>, ts: seq<Turn>, i: nat, j: nat, n: string)
    requires LoopRun(c, until, ls, ts) && i < j < |ts| && Works(c, ls[i], ts[i], n) && ts[j].Handle? && ts[j].n == n
    requires ls[i].v.st.api[n].deleting && ls[i].v.st.api[n].finalizers != {KRAKEND_FINALIZER}
    ensures Works(c, ls[j], ts[j], n)
  {
    LoopInvariant(c, until, ls, ts, i);
    LoopInvariant(c, until, ls, ts, j);
    LingersOn(c, until, ls, ts, i, j, n, ls[i].v.st.api[n].spec);
  }

  /**
    A resource that has updated the ConfigMap does so again on a later event if and only if it is being
    deleted and the operator's finalizer is not its only one; then it does so on every later event.
   */
  lemma WorksAgainIffKept(c: Config, until: int, ls: seq<Loop>, ts: seq<Turn>, i: nat, j: nat, n: string)
    requires LoopRun(c, until, ls, ts) && i < j < |ts| && Works(c, ls[i], ts[i], n) && ts[j].Handle? && ts[j].n == n
    ensures Works(c, ls[j], ts[j], n) <==>
              ls[i].v.st.api[n].deleting && ls[i].v.st.api[n].finalizers != {KRAKEND_FINALIZER}
  {
    if !ls[i].v.st.api[n].deleting {
      LiveWorksOnce(c, until, ls, ts, i, j, n);
    } else if ls[i].v.st.api[n].finalizers == {KRAKEND_FINALIZER} {
      LastFinalizerWorksOnce(c, until, ls, ts, i, j, n);
    } else {
      KeptWorksAgain(c, until, ls, ts, i, j, n);
    }
  }

  /** Taking the operator's finalizer off raises an event, and handling that event updates the ConfigMap again. */
  lemma KeptWorksTwice(c: Config, until: int, l: Loop, n: string) returns (ls: seq<Loop>, ts: seq<Turn>)
    requires Healthy(c, l.v.st) && InWindow(c, l.clock, until) && n in l.events
    requires n in l.v.st.api && l.v.st.api[n].deleting && KrakendName(c.ns, l.v.st.api[n].spec) in l.v.st.krakends
    requires {KRAKEND_FINALIZER} < l.v.st.api[n].finalizers
    ensures LoopRun(c, until, ls, ts) && ls[0] == l && |ts| == 2
    ensures Works(c, ls[0], ts[0], n) && Works(c, ls[1], ts[1], n)
  {
    var listed := SomeListing(l.v.st.api);
    var t := Handle(n, l.clock, listed);
    var l1 := TurnResult(c, l, t);
    TurnKeepsOk(c, until, l.clock, l, t);
    FirstTurnRaises(c, l, t);
    var listed1 := SomeListing(l1.v.st.api);
    var t1 := Handle(n, l.clock, listed1);
    ls, ts := [l, l1, TurnResult(c, l1, t1)], [t, t1];
    assert TurnAt(c, until, ls, ts, 0) && TurnAt(c, until, ls, ts, 1);
    KeptWorksAgain(c, until, ls, ts, 0, 1, n);
  }

  lemma FirstTurnRaises(c: Config, l: Loop, t: Turn)
    requires Healthy(c, l.v.st) && t.Handle? && Enumerates(l.v.st.api, t.listed) && t.n in l.v.st.api
    requires l.v.st.api[t.n].deleting && KRAKEND_FINALIZER in l.v.st.api[t.n].finalizers
    ensures t.n in TurnResult(c, l, t).events
  {
    var kname := KrakendName(c.ns, l.v.st.api[t.n].spec);
    if kname in l.v.st.krakends { ConfigMapUpdateSucceeds(c, l.v, kname, t.listed); }
    assert Reconciled(c, l.v, t.clock, t.n, t.listed).apiWrites == 1;
  }

  /** A namespace in which this happens: one Krakend, one deleting resource with a second finalizer. */
  lemma WorksTwiceExample(c: Config) returns (ls: seq<Loop>, ts: seq<Turn>)
    requires c.syncInterval >= 0
    ensures LoopRun(c, 0, ls, ts) && |ts| == 2 && Works(c, ls[0], ts[0], "b") && Works(c, ls[1], ts[1], "b")
    ensures ls[0].events == multiset{"b"}
  {
    var spec := Spec("k", "", Auth("p", false, false, [], []), None, [], []);
    var b := ApiEndpoints("b", 0, 0, true, {KRAKEND_FINALIZER, "other"}, [], spec, Status(0, ""));
    var st := Store(map["b" := b], map["k" := Krakend("k", 0, [])],
                    map[CmName("k") := ConfigMap(0, Some(Template("[]")))]);
    assert forall n :: !LiveIn(st.api, n);
    assert "other" in b.finalizers && "other" !in {KRAKEND_FINALIZER};
    ls, ts := KeptWorksTwice(c, 0, Loop(Versioned(st, 1), 0, multiset{"b"}), "b");
  }

  // ----- convergence -----

  /** Every live resource records the hash of its spec; no deleting one holds the finalizer. */
  ghost predicate Converged(c: Config, api: map<string, ApiEndpoints>) {
    forall n :: n in api ==>
      if api[n].deleting then KRAKEND_FINALIZER !in api[n].finalizers
      else api[n].status.hash == c.hash(api[n].spec)
  }

  lemma {:induction false} StaleStayQueued(c: Config, until: int, ls: seq<Loop>, ts: seq<Turn>, i: nat)
    requires LoopRun(c, until, ls, ts) && i < |ls| && StaleAreQueued(c, ls[0])
    ensures StaleAreQueued(c, ls[i])
  {
    if i > 0 {
      StaleStayQueued(c, until, ls, ts, i - 1);
      RunProgress(c, until, ls, ts, i - 1);
    }
  }

  /** If every stale resource has an event, an empty queue means that nothing is stale any more. */
  lemma DrainedIsConverged(c: Config, until: int, ls: seq<Loop>, ts: seq<Turn>)
    requires LoopRun(c, until, ls, ts) && StaleAreQueued(c, ls[0])
    requires ls[|ls| - 1].events == multiset{}
    ensures Converged(c, ls[|ls| - 1].v.st.api)
  {
    StaleStayQueued(c, until, ls, ts, |ls| - 1);
    var api := ls[|ls| - 1].v.st.api;
    assert forall n :: n in api ==> !Stale(c, api, n);
  }
}
