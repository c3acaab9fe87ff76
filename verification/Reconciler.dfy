/**
  One undisturbed call of the ApiEndpoints reconciler (internal/controller/apiendpoints_controller.go),
  as the imperative method and as the function of the store that it computes.
 */
module Reconciler {
  import opened ApiTypes
  import opened GatewayCompiler
  import opened Admission
  import opened Protocol
  import opened Hosts
  import opened NetworkPolicies

  /** A store with the version the next write will get. */
  datatype Versioned = Versioned(st: Store, next: nat)

  /** `apiWrites` counts the writes to the reconciled resource; each raises a watch event for it. */
  datatype Outcome = Outcome(after: Versioned, ok: bool, apiWrites: nat)

  function PutApiV(v: Versioned, e: ApiEndpoints): Versioned {
    Versioned(PutApi(v.st, e, v.next), v.next + 1)
  }

  /** What updateKrakendConfigMap leaves, or None when it fails. */
  function ConfigMapUpdated(c: Config, v: Versioned, k: Krakend, listed: seq<ApiEndpoints>): Option<Versioned> {
    var n := CmName(k.name);
    if n !in v.st.cms || v.st.cms[n].data.None? then None
    else match Compile(k, FilterLive(listed))
      case None => None
      case Some(out) =>
        if c.everyWriteCounts || !Reads(c, v.st.cms[n].data, out)
        then Some(Versioned(PutCm(v.st, n, Some(Partials(out)), v.next), v.next + 1))
        else Some(v)
  }

  predicate Skips(c: Config, e: ApiEndpoints, clock: int) {
    e.status.hash == c.hash(e.spec) && !NeedsSync(c, e.status.timestamp, clock)
  }

  function DeletionReconciled(c: Config, v: Versioned, e: ApiEndpoints, listed: seq<ApiEndpoints>): Outcome {
    var kname := KrakendName(c.ns, e.spec);
    var updated := if kname in v.st.krakends then ConfigMapUpdated(c, v, v.st.krakends[kname], listed) else Some(v);
    if updated.None? then Outcome(v, false, 0)
    else if KRAKEND_FINALIZER in e.finalizers then
      Outcome(PutApiV(updated.value, e.(finalizers := e.finalizers - {KRAKEND_FINALIZER})), true, 1)
    else Outcome(updated.value, true, 0)
  }

  /** Adds finalizer and owner where missing; None when admission refuses the update. */
  ghost function ResourceClaimed(c: Config, v: Versioned, e: ApiEndpoints, k: Krakend): Option<Versioned> {
    if KRAKEND_FINALIZER in e.finalizers && e.owners != [] then Some(v)
    else if Admitted(c.ns, v.st.krakends, v.st.api, Claim(e, k)) then Some(PutApiV(v, Claim(e, k)))
    else None
  }

  /** Claims `e`, refetches it and records hash and time. */
  ghost function ClaimedAndRecorded(c: Config, v: Versioned, e: ApiEndpoints, k: Krakend, clock: int): Outcome {
    var claimed := ResourceClaimed(c, v, e, k);
    if claimed.None? then Outcome(v, false, 0)
    else if e.name !in claimed.value.st.api then Outcome(claimed.value, false, 1)
    else
      var latest := claimed.value.st.api[e.name];
      Outcome(PutApiV(claimed.value, latest.(status := Status(clock, c.hash(e.spec)))), true,
              if claimed == Some(v) then 1 else 2)
  }

  ghost function SyncReconciled(c: Config, v: Versioned, e: ApiEndpoints, clock: int,
                                listed: seq<ApiEndpoints>): Outcome {
    var kname := KrakendName(c.ns, e.spec);
    if kname !in v.st.krakends then Outcome(v, false, 0)
    else
      var k := v.st.krakends[kname];
      var written := ConfigMapUpdated(c, v, k, listed);
      if written.None? then Outcome(v, false, 0)
      else ClaimedAndRecorded(c, written.value, e, k, clock)
  }

  ghost function Reconciled(c: Config, v: Versioned, clock: int, n: string, listed: seq<ApiEndpoints>): Outcome {
    if n !in v.st.api then Outcome(v, true, 0)
    else
      var e := v.st.api[n];
      if e.deleting then DeletionReconciled(c, v, e, listed)
      else if Skips(c, e, clock) then Outcome(v, true, 0)
      else SyncReconciled(c, v, e, clock, listed)
  }

  /** A live resource whose spec or sync window calls for work, and whose Krakend and ConfigMap allow it. */
  ghost predicate WritesConfigMap(c: Config, v: Versioned, clock: int, n: string, listed: seq<ApiEndpoints>) {
    && n in v.st.api && !v.st.api[n].deleting && !Skips(c, v.st.api[n], clock)
    && KrakendName(c.ns, v.st.api[n].spec) in v.st.krakends
    && ConfigMapWritten(c, v, n, listed).Some?
  }

  ghost function ConfigMapWritten(c: Config, v: Versioned, n: string, listed: seq<ApiEndpoints>): Option<Versioned>
    requires n in v.st.api && KrakendName(c.ns, v.st.api[n].spec) in v.st.krakends
  {
    ConfigMapUpdated(c, v, v.st.krakends[KrakendName(c.ns, v.st.api[n].spec)], listed)
  }

  // ----- the method -----

  class Cluster {
    const c: Config
    const netpolEnabled: bool
    const domain: string
    const policies: Policies
    var v: Versioned
    var clock: int

    constructor (c: Config, netpolEnabled: bool, domain: string, policies: Policies, v: Versioned, clock: int)
      ensures this.c == c && this.netpolEnabled == netpolEnabled && this.domain == domain
      ensures this.policies == policies && this.v == v && this.clock == clock
    {
      this.c, this.netpolEnabled, this.domain, this.policies := c, netpolEnabled, domain, policies;
      this.v, this.clock := v, clock;
    }

    method List() returns (listed: seq<ApiEndpoints>)
      requires NamesMatch(v.st.api)
      ensures Enumerates(v.st.api, listed)
    {
      listed := [];
      var names := v.st.api.Keys;
      while names != {}
        invariant names <= v.st.api.Keys
        invariant Enumerates(map n | n in v.st.api && n !in names :: v.st.api[n], listed)
      {
        var n :| n in names;
        ghost var before := map m | m in v.st.api && m !in names :: v.st.api[m];
        EnumeratesAppend(before, listed, v.st.api[n]);
        listed := listed + [v.st.api[n]];
        names := names - {n};
        assert (map m | m in v.st.api && m !in names :: v.st.api[m]) == before[n := v.st.api[n]];
      }
      assert (map m | m in v.st.api && m !in names :: v.st.api[m]) == v.st.api;
    }

    /** Update of the main resource: version check, finalizer rule, admission. */
    method UpdateEndpoints(e: ApiEndpoints) returns (ok: bool)
      requires NamesMatch(v.st.api)
      modifies this`v
      ensures ok <==> && e.name in old(v.st.api) && old(v.st.api)[e.name].version == e.version
                      && UpdateAllowed(old(v.st.api)[e.name], e.finalizers)
                      && Admitted(c.ns, old(v.st.krakends), old(v.st.api), e)
      ensures v == if ok then PutApiV(old(v), e) else old(v)
    {
      if e.name !in v.st.api || v.st.api[e.name].version != e.version
         || !UpdateAllowed(v.st.api[e.name], e.finalizers) {
        return false;
      }
      var listed := List();
      ok := Handle(c.ns, v.st.krakends, listed, e, v.st.api);
      if ok {
        v := PutApiV(v, e);
      }
    }

    method UpdateKrakendConfigMap(k: Krakend) returns (ok: bool, ghost listed: seq<ApiEndpoints>)
      requires NamesMatch(v.st.api)
      modifies this`v
      ensures Enumerates(old(v.st.api), listed)
      ensures ok <==> ConfigMapUpdated(c, old(v), k, listed).Some?
      ensures v == if ok then ConfigMapUpdated(c, old(v), k, listed).value else old(v)
    {
      var n := CmName(k.name);
      if n !in v.st.cms || v.st.cms[n].data.None? {
        listed := List();
        return false, listed;
      }
      var cm := v.st.cms[n];
      var items := List();
      listed := items;
      var filtered := [];
      for i := 0 to |items|
        invariant filtered == FilterLive(items[..i])
      {
        assert items[..i + 1][..i] == items[..i];
        if !items[i].deleting {
          filtered := filtered + [items[i]];
        }
      }
      assert items[..|items|] == items;
      var out := ToKrakendEndpoints(k, filtered);
      if out.None? {
        return false, listed;
      }
      if n in v.st.cms && v.st.cms[n].version == cm.version {
        if c.everyWriteCounts || !Reads(c, v.st.cms[n].data, out.value) {
          v := Versioned(PutCm(v.st, n, Some(Partials(out.value)), v.next), v.next + 1);
        }
        return true, listed;
      }
      ok := false;
    }

    /** A resource that is marked for deletion. */
    method ReconcileDeletion(endpoints: ApiEndpoints) returns (ok: bool, ghost listed: seq<ApiEndpoints>)
      requires NamesMatch(v.st.api) && endpoints.deleting
      requires endpoints.name in v.st.api && v.st.api[endpoints.name] == endpoints
      modifies this`v
      ensures Enumerates(old(v.st.api), listed)
      ensures ok == DeletionReconciled(c, old(v), endpoints, listed).ok
      ensures v == DeletionReconciled(c, old(v), endpoints, listed).after
    {
      var krakendName := KrakendName(c.ns, endpoints.spec);
      if krakendName in v.st.krakends {
        ok, listed := UpdateKrakendConfigMap(v.st.krakends[krakendName]);
        if !ok {
          return;
        }
      } else {
        listed := List();
      }
      if KRAKEND_FINALIZER in endpoints.finalizers {
        ok := UpdateEndpoints(endpoints.(finalizers := endpoints.finalizers - {KRAKEND_FINALIZER}));
        return;
      }
      ok := true;
    }

    /** The part after the ConfigMap was written: finalizer and owner, then the status. */
    method ClaimAndRecord(n: string, k: Krakend, hash: string) returns (ok: bool)
      requires NamesMatch(v.st.api) && n in v.st.api && !v.st.api[n].deleting && hash == c.hash(v.st.api[n].spec)
      modifies this`v
      ensures ok == ClaimedAndRecorded(c, old(v), old(v.st.api)[n], k, clock).ok
      ensures v == ClaimedAndRecorded(c, old(v), old(v.st.api)[n], k, clock).after
    {
      var endpoints := v.st.api[n];
      var needsUpdate := KRAKEND_FINALIZER !in endpoints.finalizers;
      endpoints := endpoints.(finalizers := endpoints.finalizers + {KRAKEND_FINALIZER});
      if endpoints.owners == [] {
        endpoints := endpoints.(owners := [OwnerRef(k.name, k.uid)]);
        needsUpdate := true;
      }
      if needsUpdate {
        ok := UpdateEndpoints(endpoints);
        if !ok {
          return;
        }
      }

      if n !in v.st.api {
        ok := false;
        return;
      }
      endpoints := v.st.api[n];
      v := PutApiV(v, endpoints.(status := Status(clock, hash)));
      ok := true;
    }

    /**
      Reconcile; the error result is `!ok`.  `stopped` tells that a policy call failed, which ends the call
      without an error, after the ConfigMap was written and before the resource is claimed or recorded.
     */
    method Reconcile(n: string, parse: Parser, fails: (Call, string) -> bool)
      returns (ok: bool, ghost listed: seq<ApiEndpoints>, ghost stopped: bool, ghost apps: seq<string>)
      requires NamesMatch(v.st.api) && DotFree(c.ns)
      modifies this`v, policies
      ensures Enumerates(old(v.st.api), listed)
      ensures !stopped ==> ok == Reconciled(c, old(v), clock, n, listed).ok
      ensures !stopped ==> v == Reconciled(c, old(v), clock, n, listed).after
      ensures stopped ==> netpolEnabled && WritesConfigMap(c, old(v), clock, n, listed)
      ensures stopped ==> ok && v == ConfigMapWritten(c, old(v), n, listed).value
      ensures (forall call, name :: !fails(call, name)) ==> !stopped
      ensures netpolEnabled && WritesConfigMap(c, old(v), clock, n, listed) ==>
                var e := old(v.st.api)[n];
                && ServingApps(parse, c.ns, domain, e.spec.endpoints, apps)
                && Ensured(old(policies.all), policies.all, KrakendName(c.ns, e.spec), OwnerRef(e.name, e.uid), apps)
                && (!stopped ==>
                      forall app :: app in apps ==> PolicyName(KrakendName(c.ns, e.spec), app) in policies.all)
      ensures !(netpolEnabled && WritesConfigMap(c, old(v), clock, n, listed)) ==> policies.all == old(policies.all)
    {
      stopped, apps := false, [];
      if n !in v.st.api {
        listed := List();
        ok := true;
        return;
      }
      var endpoints := v.st.api[n];

      if endpoints.deleting {
        ok, listed := ReconcileDeletion(endpoints);
        return;
      }

      var hash := c.hash(endpoints.spec);
      if endpoints.status.hash == hash && !NeedsSync(c, endpoints.status.timestamp, clock) {
        listed := List();
        ok := true;
        return;
      }

      var krakendName := KrakendName(c.ns, endpoints.spec);
      if krakendName !in v.st.krakends {
        listed := List();
        ok := false;
        return;
      }
      var k := v.st.krakends[krakendName];
      ok, listed := UpdateKrakendConfigMap(k);
      if !ok {
        return;
      }

      if netpolEnabled {
        var ensured, names := policies.EnsureAppIngressNetpol(parse, c.ns, domain, endpoints, fails);
        apps := names;
        if !ensured {
          stopped, ok := true, true;
          return;
        }
      }

      ok := ClaimAndRecord(n, k, hash);
    }
  }
}
