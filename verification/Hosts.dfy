/** Which backend hosts are applications of the resource's own namespace (appsInNamespace). */
module Hosts {
  import opened ApiTypes
  import opened Sequences

  /** What url.Parse yields of a backend host; None stands for a parse error. */
  datatype Url = Url(scheme: string, hostname: string)
  type Parser = string -> Option<Url>

  predicate DotFree(s: string) {
    '.' !in s
  }

  /** strings.Split(s, "."). */
  function Split(s: string): (r: seq<string>)
    ensures |r| >= 1
  {
    if s == "" then [""]
    else
      var r := Split(s[1..]);
      if s[0] == '.' then [""] + r else [[s[0]] + r[0]] + r[1..]
  }

  /** strings.Join(parts, "."). */
  function Join(parts: seq<string>): string {
    if parts == [] then ""
    else if |parts| == 1 then parts[0]
    else parts[0] + "." + Join(parts[1..])
  }

  lemma {:induction false} SplitPartsDotFree(s: string)
    ensures forall i :: 0 <= i < |Split(s)| ==> DotFree(Split(s)[i])
  {
    if s != "" {
      SplitPartsDotFree(s[1..]);
    }
  }

  lemma {:induction false} JoinSplit(s: string)
    ensures Join(Split(s)) == s
  {
    if s != "" {
      JoinSplit(s[1..]);
      var r := Split(s[1..]);
      if s[0] == '.' {
        assert Split(s)[1..] == r;
        assert s == "." + s[1..];
      } else if |r| == 1 {
        assert s == [s[0]] + s[1..];
      } else {
        assert Split(s)[1..] == r[1..];
        assert s == [s[0]] + (r[0] + "." + Join(r[1..]));
      }
    }
  }

  /** A dot-free prefix comes off as the first part. */
  lemma {:induction false} SplitAtDot(a: string, s: string)
    requires DotFree(a)
    ensures Split(a + "." + s) == [a] + Split(s)
  {
    var t := a + "." + s;
    if a == "" {
      assert t[0] == '.' && t[1..] == s;
    } else {
      SplitAtDot(a[1..], s);
      assert t[0] == a[0] && t[1..] == a[1..] + "." + s;
      assert [a[0]] + a[1..] == a;
    }
  }

  lemma {:induction false} SplitDotFree(a: string)
    requires DotFree(a)
    ensures Split(a) == [a]
  {
    if a != "" {
      SplitDotFree(a[1..]);
      assert [a[0]] + a[1..] == a;
    }
  }

  /** Splitting is the inverse of joining dot-free parts. */
  lemma {:induction false} SplitJoin(parts: seq<string>)
    requires parts != [] && forall i :: 0 <= i < |parts| ==> DotFree(parts[i])
    ensures Split(Join(parts)) == parts
  {
    if |parts| == 1 {
      SplitDotFree(parts[0]);
    } else {
      SplitJoin(parts[1..]);
      SplitAtDot(parts[0], Join(parts[1..]));
    }
  }

  // ----- the switch on the number of parts -----

  function AppOf(ns: string, domain: string, host: string): string {
    var parts := Split(host);
    if |parts| == 1 then parts[0]
    else if |parts| == 2 then (if parts[1] == ns then parts[0] else "")
    else if |parts| > 3 then
      (if parts[1] == ns && Join(parts[2..]) == "svc." + domain then parts[0] else "")
    else ""
  }

  /** Service names that reach `app` in namespace `ns` of a cluster with domain `domain`. */
  ghost predicate Names(ns: string, domain: string, host: string, app: string) {
    && app != "" && DotFree(app)
    && (|| host == app
        || host == app + "." + ns
        || host == app + "." + ns + ".svc." + domain)
  }

  lemma AppOfSound(ns: string, domain: string, host: string)
    requires AppOf(ns, domain, host) != ""
    ensures Names(ns, domain, host, AppOf(ns, domain, host))
  {
    JoinSplit(host);
    SplitPartsDotFree(host);
    var parts := Split(host);
    if |parts| > 1 {
      assert Join(parts) == parts[0] + "." + Join(parts[1..]);
    }
    if |parts| > 3 {
      assert parts[1..][1..] == parts[2..];
      assert Join(parts[1..]) == parts[1] + "." + Join(parts[2..]);
      Spelled(parts[0], ns, domain);
    }
  }

  lemma Spelled(app: string, ns: string, domain: string)
    ensures app + "." + ns + ".svc." + domain == app + "." + (ns + "." + ("svc." + domain))
  {
    assert ".svc." == "." + "svc.";
  }

  lemma ShortName(ns: string, domain: string, app: string)
    requires DotFree(ns) && DotFree(app)
    ensures AppOf(ns, domain, app) == app && AppOf(ns, domain, app + "." + ns) == app
  {
    SplitDotFree(app);
    SplitAtDot(app, ns);
    SplitDotFree(ns);
  }

  lemma {:induction false} SplitTwice(a: string, b: string, rest: string)
    requires DotFree(a) && DotFree(b)
    ensures Split(a + "." + (b + "." + rest)) == [a] + ([b] + Split(rest))
  {
    SplitAtDot(a, b + "." + rest);
    SplitAtDot(b, rest);
  }

  lemma {:induction false} ServiceSuffix(domain: string)
    ensures |Split("svc." + domain)| >= 2 && Join(Split("svc." + domain)) == "svc." + domain
  {
    assert "svc." + domain == "svc" + "." + domain;
    SplitAtDot("svc", domain);
    JoinSplit("svc." + domain);
  }

  lemma FullName(ns: string, domain: string, app: string)
    requires DotFree(ns) && DotFree(app)
    ensures AppOf(ns, domain, app + "." + ns + ".svc." + domain) == app
  {
    Spelled(app, ns, domain);
    SplitTwice(app, ns, "svc." + domain);
    ServiceSuffix(domain);
    var rest := Split("svc." + domain);
    assert ([app] + ([ns] + rest))[2..] == rest;
  }

  lemma AppOfComplete(ns: string, domain: string, host: string, app: string)
    requires DotFree(ns) && Names(ns, domain, host, app)
    ensures AppOf(ns, domain, host) == app
  {
    ShortName(ns, domain, app);
    FullName(ns, domain, app);
  }

  /** The switch accepts exactly the three spellings of a service name. */
  lemma ClassifierExact(ns: string, domain: string, host: string, app: string)
    requires DotFree(ns) && app != ""
    ensures AppOf(ns, domain, host) == app <==> Names(ns, domain, host, app)
  {
    if AppOf(ns, domain, host) == app {
      AppOfSound(ns, domain, host);
    }
    if Names(ns, domain, host, app) {
      AppOfComplete(ns, domain, host, app);
    }
  }

  /** Endpoint `e` is served over plain http by application `app` of the namespace. */
  ghost predicate ServedBy(parse: Parser, ns: string, domain: string, e: Endpoint, app: string) {
    var u := parse(e.backendHost);
    u.Some? && u.value.scheme == "http" && Names(ns, domain, u.value.hostname, app)
  }

  /** Endpoint `i` is the first one served by `app`. */
  ghost predicate FirstServed(parse: Parser, ns: string, domain: string, eps: seq<Endpoint>, app: string, i: nat) {
    && i < |eps| && ServedBy(parse, ns, domain, eps[i], app)
    && forall j :: 0 <= j < i ==> !ServedBy(parse, ns, domain, eps[j], app)
  }

  /** `apps` are the applications that serve some endpoint, each once, ordered by their first endpoint. */
  ghost predicate ServingApps(parse: Parser, ns: string, domain: string, eps: seq<Endpoint>, apps: seq<string>) {
    && NoDup(apps)
    && (forall app :: app in apps <==> exists i :: 0 <= i < |eps| && ServedBy(parse, ns, domain, eps[i], app))
    && (forall a, b, i, j ::
          (&& 0 <= a < b < |apps| && FirstServed(parse, ns, domain, eps, apps[a], i)
           && FirstServed(parse, ns, domain, eps, apps[b], j)) ==> i < j)
  }

  method AppsInNamespace(parse: Parser, ns: string, domain: string, eps: seq<Endpoint>) returns (apps: seq<string>)
    requires DotFree(ns)
    ensures ServingApps(parse, ns, domain, eps, apps)
  {
    var seen: map<string, bool> := map[];
    apps := [];
    for n := 0 to |eps|
      invariant forall app :: app in seen <==> app in apps
      invariant "" !in seen
      invariant ServingApps(parse, ns, domain, eps[..n], apps)
    {
      var u := parse(eps[n].backendHost);
      ghost var before := apps;
      if u.Some? && u.value.scheme == "http" && u.value.hostname != "" {
        var app := AppOf(ns, domain, u.value.hostname);
        if app !in seen && app != "" {
          seen := seen[app := true];
          apps := apps + [app];
        }
      }
      OneMoreEndpoint(parse, ns, domain, eps, n, before, apps);
    }
    assert eps[..|eps|] == eps;
  }

  /** Taking in endpoint `n` keeps the list right. */
  lemma OneMoreEndpoint(parse: Parser, ns: string, domain: string, eps: seq<Endpoint>, n: nat,
                        before: seq<string>, apps: seq<string>)
    requires DotFree(ns) && n < |eps| && ServingApps(parse, ns, domain, eps[..n], before)
    requires var u := parse(eps[n].backendHost);
             var app := if u.Some? && u.value.scheme == "http" && u.value.hostname != ""
                        then AppOf(ns, domain, u.value.hostname) else "";
             apps == if app != "" && app !in before then before + [app] else before
    ensures ServingApps(parse, ns, domain, eps[..n + 1], apps)
  {
    var s, s' := eps[..n], eps[..n + 1];
    assert s' == s + [eps[n]];
    var u := parse(eps[n].backendHost);
    var app := if u.Some? && u.value.scheme == "http" && u.value.hostname != ""
               then AppOf(ns, domain, u.value.hostname) else "";
    forall x ensures ServedBy(parse, ns, domain, eps[n], x) <==> x != "" && x == app {
      if x != "" && u.Some? {
        ClassifierExact(ns, domain, u.value.hostname, x);
      }
    }
    forall x ensures x in apps <==> exists i :: 0 <= i < |s'| && ServedBy(parse, ns, domain, s'[i], x) {
      assert forall i :: 0 <= i < n ==> s'[i] == s[i];
      assert s'[n] == eps[n];
    }
    forall a, b, i, j |
      0 <= a < b < |apps| && FirstServed(parse, ns, domain, s', apps[a], i)
      && FirstServed(parse, ns, domain, s', apps[b], j)
      ensures i < j
    {
      assert apps[a] == before[a] && before[a] in before;
      EarlierFirst(parse, ns, domain, s, s', apps[a], i);
      if b < |before| {
        assert apps[b] == before[b] && before[b] in before;
        EarlierFirst(parse, ns, domain, s, s', apps[b], j);
      } else {
        assert apps[b] !in before;
        assert forall m :: 0 <= m < |s| ==> !ServedBy(parse, ns, domain, s[m], apps[b]);
      }
    }
  }

  lemma EarlierFirst(parse: Parser, ns: string, domain: string, s: seq<Endpoint>, s': seq<Endpoint>, app: string,
                     i: nat)
    requires s <= s' && FirstServed(parse, ns, domain, s', app, i)
    requires exists m :: 0 <= m < |s| && ServedBy(parse, ns, domain, s[m], app)
    ensures i < |s| && FirstServed(parse, ns, domain, s, app, i)
  {
    var m :| 0 <= m < |s| && ServedBy(parse, ns, domain, s[m], app);
    assert s'[m] == s[m];
  }

  /** The endpoints determine the applications. */
  lemma SameServingApps(parse: Parser, ns: string, domain: string, eps: seq<Endpoint>, apps: seq<string>,
                        apps': seq<string>)
    requires ServingApps(parse, ns, domain, eps, apps) && ServingApps(parse, ns, domain, eps, apps')
    ensures forall app :: app in apps <==> app in apps'
  {
  }
}
