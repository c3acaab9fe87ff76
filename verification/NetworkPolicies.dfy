/** Ingress policies for the applications behind the gateway (ensureAppIngressNetpol). */
module NetworkPolicies {
  import opened ApiTypes
  import opened Sequences
  import opened Hosts

  /** `app` is the label the policy selects. */
  datatype Policy = Policy(app: string, owner: OwnerRef)

  datatype Call = GetPolicy | CreatePolicy | UpdatePolicy

  function PolicyName(krakend: string, app: string): string {
    "allow-" + krakend + "-" + app
  }

  /** The policies after the missing ones for `apps` were created. */
  ghost predicate Ensured(was: map<string, Policy>, now: map<string, Policy>,
                          krakend: string, owner: OwnerRef, apps: seq<string>) {
    && (forall n :: n in was ==> n in now && now[n] == was[n])
    && (forall n :: n in now && n !in was ==>
          exists i :: 0 <= i < |apps| && n == PolicyName(krakend, apps[i]) && now[n] == Policy(apps[i], owner))
  }

  ghost predicate Present(now: map<string, Policy>, krakend: string, apps: seq<string>) {
    forall i :: 0 <= i < |apps| ==> PolicyName(krakend, apps[i]) in now
  }

  /** The API calls for the policy of `app` go through: one to look, one to create it or to write it back. */
  ghost predicate CallsSucceed(fails: (Call, string) -> bool, was: map<string, Policy>, krakend: string, app: string) {
    var name := "allow-" + krakend + "-" + app;
    && !fails(GetPolicy, name)
    && (if name in was then !fails(UpdatePolicy, name) else !fails(CreatePolicy, name))
  }

  class Policies {
    var all: map<string, Policy>

    constructor (all: map<string, Policy>)
      ensures this.all == all
    {
      this.all := all;
    }

    /** One app: its policy is created if missing and otherwise written back as it is. */
    method EnsurePolicy(krakend: string, app: string, owner: OwnerRef, fails: (Call, string) -> bool)
      returns (ok: bool)
      modifies this
      ensures ok <==> CallsSucceed(fails, old(all), krakend, app)
      ensures ok ==> "allow-" + krakend + "-" + app in all
      ensures all == if ok && PolicyName(krakend, app) !in old(all)
                     then old(all)[PolicyName(krakend, app) := Policy(app, owner)] else old(all)
    {
      var name := PolicyName(krakend, app);
      if fails(GetPolicy, name) {
        return false;
      }
      if name !in all {
        if fails(CreatePolicy, name) {
          return false;
        }
        all := all[name := Policy(app, owner)];
      } else {
        if fails(UpdatePolicy, name) {
          return false;
        }
        all := all[name := all[name]];
        assert all == old(all);
      }
      ok := true;
    }

    /** `fails` tells which API calls return an error. */
    method EnsureAppIngressNetpol(parse: Parser, ns: string, domain: string, e: ApiEndpoints,
                                  fails: (Call, string) -> bool)
      returns (ok: bool, apps: seq<string>)
      requires DotFree(ns)
      modifies this
      ensures ServingApps(parse, ns, domain, e.spec.endpoints, apps)
      ensures Ensured(old(all), all, KrakendName(ns, e.spec), OwnerRef(e.name, e.uid), apps)
      ensures ok ==> forall app :: app in apps ==> PolicyName(KrakendName(ns, e.spec), app) in all
      ensures ok ==> forall app :: app in apps ==>
                "allow-" + (if e.spec.krakend == "" then ns else e.spec.krakend) + "-" + app in all
      ensures ok <==> forall app :: app in apps ==> CallsSucceed(fails, old(all), KrakendName(ns, e.spec), app)
      ensures (forall call, n :: !fails(call, n)) ==> ok
    {
      apps := AppsInNamespace(parse, ns, domain, e.spec.endpoints);
      var krakend, owner := KrakendName(ns, e.spec), OwnerRef(e.name, e.uid);
      for i := 0 to |apps|
        invariant Ensured(old(all), all, krakend, owner, apps[..i])
        invariant Present(all, krakend, apps[..i]) && Untouched(old(all), all, krakend, apps, i)
        invariant Succeeded(fails, old(all), krakend, apps[..i])
      {
        ghost var before := all;
        ok := EnsurePolicy(krakend, apps[i], owner, fails);
        SameCalls(fails, old(all), before, krakend, apps, i);
        if !ok {
          EnsuredMore(old(all), all, krakend, owner, apps, i);
          return false, apps;
        }
        EnsuredStep(old(all), before, krakend, owner, apps, i);
        SucceededStep(fails, old(all), krakend, apps, i);
        OtherPoliciesKept(old(all), before, krakend, owner, apps, i);
      }
      assert apps[..|apps|] == apps;
      AllPresent(all, krakend, apps);
      AllSucceeded(fails, old(all), krakend, apps);
      ok := true;
    }
  }

  ghost predicate Succeeded(fails: (Call, string) -> bool, was: map<string, Policy>, krakend: string,
                            apps: seq<string>) {
    forall j :: 0 <= j < |apps| ==> CallsSucceed(fails, was, krakend, apps[j])
  }

  lemma AllSucceeded(fails: (Call, string) -> bool, was: map<string, Policy>, krakend: string, apps: seq<string>)
    requires Succeeded(fails, was, krakend, apps)
    ensures forall app :: app in apps ==> CallsSucceed(fails, was, krakend, app)
  {
  }

  lemma SucceededStep(fails: (Call, string) -> bool, was: map<string, Policy>, krakend: string,
                      apps: seq<string>, i: nat)
    requires i < |apps| && Succeeded(fails, was, krakend, apps[..i]) && CallsSucceed(fails, was, krakend, apps[i])
    ensures Succeeded(fails, was, krakend, apps[..i + 1])
  {
    var s, s' := apps[..i], apps[..i + 1];
    forall j | 0 <= j < |s'| ensures CallsSucceed(fails, was, krakend, s'[j]) {
      if j < i { assert s'[j] == s[j]; }
    }
  }

  /** The policies of the applications from `i` on are as they were. */
  ghost predicate Untouched(was: map<string, Policy>, now: map<string, Policy>, krakend: string,
                            apps: seq<string>, i: nat) {
    forall j :: i <= j < |apps| ==> (PolicyName(krakend, apps[j]) in now <==> PolicyName(krakend, apps[j]) in was)
  }

  lemma SameCalls(fails: (Call, string) -> bool, was: map<string, Policy>, now: map<string, Policy>,
                  krakend: string, apps: seq<string>, i: nat)
    requires i < |apps| && Untouched(was, now, krakend, apps, i)
    ensures CallsSucceed(fails, now, krakend, apps[i]) <==> CallsSucceed(fails, was, krakend, apps[i])
  {
    assert "allow-" + krakend + "-" + apps[i] == PolicyName(krakend, apps[i]);
  }

  /** Distinct applications have distinct policy names, so taking in one leaves those to come alone. */
  lemma OtherPoliciesKept(was: map<string, Policy>, now: map<string, Policy>, krakend: string, owner: OwnerRef,
                          apps: seq<string>, i: nat)
    requires NoDup(apps) && i < |apps| && Untouched(was, now, krakend, apps, i)
    ensures var name := PolicyName(krakend, apps[i]);
            var now' := if name in now then now else now[name := Policy(apps[i], owner)];
            Untouched(was, now', krakend, apps, i + 1)
  {
    forall j | i < j < |apps| ensures PolicyName(krakend, apps[j]) != PolicyName(krakend, apps[i]) {
      if PolicyName(krakend, apps[j]) == PolicyName(krakend, apps[i]) {
        PolicyNameInjective(krakend, apps[i], apps[j]);
      }
    }
  }

  lemma AllPresent(now: map<string, Policy>, krakend: string, apps: seq<string>)
    requires Present(now, krakend, apps)
    ensures forall app :: app in apps ==> PolicyName(krakend, app) in now
  {
  }

  lemma EnsuredMore(was: map<string, Policy>, now: map<string, Policy>, krakend: string, owner: OwnerRef,
                    apps: seq<string>, i: nat)
    requires i <= |apps| && Ensured(was, now, krakend, owner, apps[..i])
    ensures Ensured(was, now, krakend, owner, apps)
  {
    forall n | n in now && n !in was
      ensures exists j :: 0 <= j < |apps| && n == PolicyName(krakend, apps[j]) && now[n] == Policy(apps[j], owner)
    {
      var j :| 0 <= j < i && n == PolicyName(krakend, apps[..i][j]) && now[n] == Policy(apps[..i][j], owner);
      assert apps[j] == apps[..i][j];
    }
  }

  lemma EnsuredStep(was: map<string, Policy>, now: map<string, Policy>, krakend: string, owner: OwnerRef,
                    apps: seq<string>, i: nat)
    requires i < |apps| && Ensured(was, now, krakend, owner, apps[..i]) && Present(now, krakend, apps[..i])
    ensures var name := PolicyName(krakend, apps[i]);
            var now' := if name in now then now else now[name := Policy(apps[i], owner)];
            Ensured(was, now', krakend, owner, apps[..i + 1]) && Present(now', krakend, apps[..i + 1])
  {
    var name, s, s' := PolicyName(krakend, apps[i]), apps[..i], apps[..i + 1];
    var now' := if name in now then now else now[name := Policy(apps[i], owner)];
    forall n | n in now' && n !in was
      ensures exists j :: 0 <= j < |s'| && n == PolicyName(krakend, s'[j]) && now'[n] == Policy(s'[j], owner)
    {
      if n !in now {
        assert s'[i] == apps[i];
      } else {
        var j :| 0 <= j < |s| && n == PolicyName(krakend, s[j]) && now[n] == Policy(s[j], owner);
        assert s'[j] == s[j];
      }
    }
    forall j | 0 <= j < |s'| ensures PolicyName(krakend, s'[j]) in now' {
      if j < i { assert s'[j] == s[j]; }
    }
  }

  /** Under one Krakend distinct applications never share a policy. */
  lemma PolicyNameInjective(krakend: string, a: string, b: string)
    requires PolicyName(krakend, a) == PolicyName(krakend, b)
    ensures a == b
  {
    var p := "allow-" + krakend + "-";
    assert PolicyName(krakend, a)[|p|..] == a && PolicyName(krakend, b)[|p|..] == b;
  }

  /**
    Two calls for the same resource, one after the other: when the first, from `was` to `mid`, succeeded,
    the second, from `mid` to `now`, changes nothing, whatever its own calls do.
   */
  lemma EnsuringAgainIsIdle(parse: Parser, ns: string, domain: string, e: ApiEndpoints,
                            was: map<string, Policy>, mid: map<string, Policy>, now: map<string, Policy>,
                            apps: seq<string>, apps': seq<string>)
    requires ServingApps(parse, ns, domain, e.spec.endpoints, apps)
    requires ServingApps(parse, ns, domain, e.spec.endpoints, apps')
    requires Ensured(was, mid, KrakendName(ns, e.spec), OwnerRef(e.name, e.uid), apps)
    requires forall app :: app in apps ==> PolicyName(KrakendName(ns, e.spec), app) in mid
    requires Ensured(mid, now, KrakendName(ns, e.spec), OwnerRef(e.name, e.uid), apps')
    ensures now == mid
  {
    SameServingApps(parse, ns, domain, e.spec.endpoints, apps, apps');
    assert forall i :: 0 <= i < |apps'| ==> apps'[i] in apps;
    assert now.Keys == mid.Keys;
  }

  /**
    After a successful run every application is selected by its policy exactly when no policy that
    already had such a name selects something else: an existing policy is never repaired.
   */
  lemma PoliciesSelectTheirApps(was: map<string, Policy>, now: map<string, Policy>, krakend: string,
                                owner: OwnerRef, apps: seq<string>)
    requires Ensured(was, now, krakend, owner, apps)
    requires forall app :: app in apps ==> PolicyName(krakend, app) in now
    ensures (forall app :: app in apps ==> now[PolicyName(krakend, app)].app == app)
            <==> forall app :: app in apps && PolicyName(krakend, app) in was ==>
                   was[PolicyName(krakend, app)].app == app
  {
    forall app | app in apps && PolicyName(krakend, app) !in was ensures now[PolicyName(krakend, app)].app == app {
      var n := PolicyName(krakend, app);
      var i :| 0 <= i < |apps| && n == PolicyName(krakend, apps[i]) && now[n] == Policy(apps[i], owner);
      PolicyNameInjective(krakend, app, apps[i]);
    }
  }

  /** One Krakend's name is the other's, a dash and the head of the app's name. */
  ghost predicate Ambiguous(k: string, a: string, k': string, a': string) {
    exists x :: k' == k + "-" + x && a == x + "-" + a'
  }

  /** Two policies share a name exactly for the same Krakend and app, or when a dash is ambiguous. */
  lemma PolicyNamesCollide(k: string, a: string, k': string, a': string)
    ensures PolicyName(k, a) == PolicyName(k', a')
            <==> (k == k' && a == a') || Ambiguous(k, a, k', a') || Ambiguous(k', a', k, a)
  {
    if |k| < |k'| {
      LongerKrakend(k, a, k', a');
      assert !Ambiguous(k', a', k, a);
    } else if |k'| < |k| {
      LongerKrakend(k', a', k, a);
      assert !Ambiguous(k, a, k', a');
    } else {
      assert !Ambiguous(k, a, k', a') && !Ambiguous(k', a', k, a);
      if PolicyName(k, a) == PolicyName(k', a') {
        assert PolicyName(k, a)[6..6 + |k|] == k && PolicyName(k', a')[6..6 + |k'|] == k';
        PolicyNameInjective(k, a, a');
      }
    }
  }

  lemma LongerKrakend(k: string, a: string, k': string, a': string)
    requires |k| < |k'|
    ensures PolicyName(k, a) == PolicyName(k', a') <==> Ambiguous(k, a, k', a')
  {
    var n, n' := PolicyName(k, a), PolicyName(k', a');
    var p := "allow-" + k + "-";
    if n == n' {
      var x := k'[|k| + 1..];
      assert n[6..6 + |k|] == k && n'[6..6 + |k'|] == k';
      assert k'[..|k|] == k by { assert n'[6..6 + |k|] == k'[..|k|]; }
      assert k'[|k|] == '-' by { assert n'[6 + |k|] == k'[|k|] && n[6 + |k|] == '-'; }
      assert k' == k + "-" + x;
      assert n[|p|..] == a && n'[|p|..] == x + "-" + a';
      assert a == x + "-" + a';
    }
    if x :| k' == k + "-" + x && a == x + "-" + a' {
      assert n == "allow-" + (k + "-" + x) + "-" + a';
    }
  }
}
