/** Egress rules of a migrated gateway application (pkg/migration/parse/app.go). */
module Migration {
  import opened ApiTypes
  import opened Hosts

  datatype Egress = AppEgress(app: string) | HostEgress(host: string)

  function KeyOf(g: Egress): string {
    match g
    case AppEgress(app) => app
    case HostEgress(host) => host
  }

  /** All protected endpoints, resource by resource. */
  function AllEndpoints(items: seq<ApiEndpoints>): seq<Endpoint> {
    if items == [] then []
    else AllEndpoints(items[..|items| - 1]) + items[|items| - 1].spec.endpoints
  }

  /** The destination an endpoint asks for: the first host label over http, else the whole hostname. */
  function Wanted(parse: Parser, e: Endpoint): Option<Egress> {
    match parse(e.backendHost)
    case None => None
    case Some(u) =>
      if u.hostname == "" then None
      else if u.scheme == "http" then
        (if Split(u.hostname)[0] == "" then None else Some(AppEgress(Split(u.hostname)[0])))
      else Some(HostEgress(u.hostname))
  }

  /** Endpoint `i` is the first that asks for key `key`, and it asks for `g`. */
  ghost predicate FirstWanted(parse: Parser, eps: seq<Endpoint>, g: Egress, i: nat) {
    && i < |eps| && Wanted(parse, eps[i]) == Some(g)
    && forall j :: 0 <= j < i && Wanted(parse, eps[j]).Some? ==> KeyOf(Wanted(parse, eps[j]).value) != KeyOf(g)
  }

  ghost predicate IsFirstWant(parse: Parser, eps: seq<Endpoint>, g: Egress) {
    exists i: nat :: FirstWanted(parse, eps, g, i)
  }

  ghost predicate DistinctKeys(out: seq<Egress>) {
    forall a, b :: 0 <= a < b < |out| ==> KeyOf(out[a]) != KeyOf(out[b])
  }

  ghost predicate AllFirst(parse: Parser, eps: seq<Endpoint>, out: seq<Egress>) {
    forall a :: 0 <= a < |out| ==> IsFirstWant(parse, eps, out[a])
  }

  ghost predicate AllSeen(parse: Parser, eps: seq<Endpoint>, out: seq<Egress>) {
    forall i :: 0 <= i < |eps| && Wanted(parse, eps[i]).Some? ==> Seen(out, KeyOf(Wanted(parse, eps[i]).value))
  }

  ghost predicate InFirstOrder(parse: Parser, eps: seq<Endpoint>, out: seq<Egress>) {
    forall a, b, i, j ::
      (&& 0 <= a < b < |out| && FirstWanted(parse, eps, out[a], i) && FirstWanted(parse, eps, out[b], j))
      ==> i < j
  }

  /** One egress per distinct key, of the kind of its first occurrence, in first-occurrence order. */
  ghost predicate Covers(parse: Parser, eps: seq<Endpoint>, out: seq<Egress>) {
    DistinctKeys(out) && AllFirst(parse, eps, out) && AllSeen(parse, eps, out) && InFirstOrder(parse, eps, out)
  }

  lemma FirstStays(parse: Parser, eps: seq<Endpoint>, e: Endpoint, g: Egress, i: nat)
    requires FirstWanted(parse, eps, g, i)
    ensures FirstWanted(parse, eps + [e], g, i)
  {
  }

  lemma FirstUnique(parse: Parser, eps: seq<Endpoint>, g: Egress, i: nat, j: nat)
    requires FirstWanted(parse, eps, g, i) && FirstWanted(parse, eps, g, j)
    ensures i == j
  {
  }

  ghost predicate Seen(out: seq<Egress>, key: string) {
    exists a :: 0 <= a < |out| && KeyOf(out[a]) == key
  }

  /** A first occurrence stays where it was when an endpoint is added. */
  lemma FirstInExtended(parse: Parser, eps: seq<Endpoint>, e: Endpoint, g: Egress, i: nat)
    requires IsFirstWant(parse, eps, g) && FirstWanted(parse, eps + [e], g, i)
    ensures i < |eps| && FirstWanted(parse, eps, g, i)
  {
    var i': nat :| FirstWanted(parse, eps, g, i');
    FirstStays(parse, eps, e, g, i');
    FirstUnique(parse, eps + [e], g, i, i');
  }

  lemma KeepsAllFirst(parse: Parser, eps: seq<Endpoint>, e: Endpoint, out: seq<Egress>)
    requires AllFirst(parse, eps, out)
    ensures AllFirst(parse, eps + [e], out)
  {
    forall a | 0 <= a < |out| ensures IsFirstWant(parse, eps + [e], out[a]) {
      var i: nat :| FirstWanted(parse, eps, out[a], i);
      FirstStays(parse, eps, e, out[a], i);
    }
  }

  lemma KeepsOrder(parse: Parser, eps: seq<Endpoint>, e: Endpoint, out: seq<Egress>)
    requires AllFirst(parse, eps, out) && InFirstOrder(parse, eps, out)
    ensures InFirstOrder(parse, eps + [e], out)
  {
    forall a, b, i, j |
      && 0 <= a < b < |out| && FirstWanted(parse, eps + [e], out[a], i) && FirstWanted(parse, eps + [e], out[b], j)
      ensures i < j
    {
      FirstInExtended(parse, eps, e, out[a], i);
      FirstInExtended(parse, eps, e, out[b], j);
    }
  }

  /** An endpoint whose key is known, or that asks for nothing, adds nothing. */
  lemma KnownEgress(parse: Parser, eps: seq<Endpoint>, e: Endpoint, out: seq<Egress>)
    requires Covers(parse, eps, out)
    requires Wanted(parse, e).Some? ==> Seen(out, KeyOf(Wanted(parse, e).value))
    ensures Covers(parse, eps + [e], out)
  {
    KeepsAllFirst(parse, eps, e, out);
    KeepsOrder(parse, eps, e, out);
  }

  /** An endpoint with a new key adds its own egress at the end. */
  lemma NewEgress(parse: Parser, eps: seq<Endpoint>, e: Endpoint, out: seq<Egress>, g: Egress)
    requires Covers(parse, eps, out)
    requires Wanted(parse, e) == Some(g) && !Seen(out, KeyOf(g))
    ensures Covers(parse, eps + [e], out + [g])
  {
    var eps', out' := eps + [e], out + [g];
    assert eps'[|eps|] == e;
    forall j | 0 <= j < |eps| && Wanted(parse, eps[j]).Some? ensures KeyOf(Wanted(parse, eps[j]).value) != KeyOf(g) {
      assert Seen(out, KeyOf(Wanted(parse, eps[j]).value));
    }
    assert FirstWanted(parse, eps', g, |eps|);
    SeenAppend(out, g);
    KeepsAllFirst(parse, eps, e, out);
    KeepsOrder(parse, eps, e, out);
    assert AllFirst(parse, eps', out');
    forall a, b, i, j |
      && 0 <= a < b < |out'| && FirstWanted(parse, eps', out'[a], i) && FirstWanted(parse, eps', out'[b], j)
      ensures i < j
    {
      if b == |out| {
        assert out'[a] == out[a];
        FirstInExtended(parse, eps, e, out[a], i);
        FirstUnique(parse, eps', g, j, |eps|);
      } else {
        assert out'[a] == out[a] && out'[b] == out[b];
      }
    }
  }

  ghost predicate Recorded(seen: map<string, bool>, out: seq<Egress>) {
    forall key :: key in seen <==> Seen(out, key)
  }

  /** The inner loop: takes in the endpoints of one resource. */
  method TakeEndpoints(parse: Parser, eps: seq<Endpoint>, ghost done: seq<Endpoint>,
                       seen: map<string, bool>, out: seq<Egress>)
    returns (seen': map<string, bool>, out': seq<Egress>)
    requires Covers(parse, done, out) && Recorded(seen, out)
    ensures Covers(parse, done + eps, out') && Recorded(seen', out')
  {
    seen', out' := seen, out;
    assert done + eps[..0] == done;
    for m := 0 to |eps|
      invariant Covers(parse, done + eps[..m], out') && Recorded(seen', out')
    {
      assert done + eps[..m + 1] == done + eps[..m] + [eps[m]];
      ghost var before := out';
      var u := parse(eps[m].backendHost);
      if u.Some? {
        if u.value.scheme == "http" && u.value.hostname != "" {
          var app := Split(u.value.hostname)[0];
          if app !in seen' && app != "" {
            seen' := seen'[app := true];
            out' := out' + [AppEgress(app)];
            SeenAppend(before, AppEgress(app));
            NewEgress(parse, done + eps[..m], eps[m], before, AppEgress(app));
            continue;
          }
        } else if u.value.hostname != "" {
          if u.value.hostname !in seen' {
            seen' := seen'[u.value.hostname := true];
            out' := out' + [HostEgress(u.value.hostname)];
            SeenAppend(before, HostEgress(u.value.hostname));
            NewEgress(parse, done + eps[..m], eps[m], before, HostEgress(u.value.hostname));
            continue;
          }
        }
      }
      KnownEgress(parse, done + eps[..m], eps[m], before);
    }
    assert eps[..|eps|] == eps;
  }

  method GetEgresses(parse: Parser, items: seq<ApiEndpoints>) returns (out: seq<Egress>)
    ensures Covers(parse, AllEndpoints(items), out)
  {
    var seen: map<string, bool> := map[];
    out := [];
    for n := 0 to |items|
      invariant Covers(parse, AllEndpoints(items[..n]), out) && Recorded(seen, out)
    {
      assert items[..n + 1][..n] == items[..n];
      seen, out := TakeEndpoints(parse, items[n].spec.endpoints, AllEndpoints(items[..n]), seen, out);
    }
    assert items[..|items|] == items;
  }

  lemma SeenAppend(out: seq<Egress>, g: Egress)
    ensures forall key :: Seen(out + [g], key) <==> Seen(out, key) || key == KeyOf(g)
  {
    var out' := out + [g];
    assert out'[|out|] == g;
    forall key | Seen(out, key) ensures Seen(out', key) {
      var a :| 0 <= a < |out| && KeyOf(out[a]) == key;
      assert out'[a] == out[a];
    }
  }

  // ----- the outbound access policy -----

  datatype Outbound = Outbound(rules: seq<string>, external: seq<string>)

  /** `part` lists, in order and without omission, what `pick` selects from `out`. */
  ghost predicate Selects<T(!new)>(out: seq<T>, pick: T -> Option<string>, part: seq<string>)
    decreases |out|
  {
    if out == [] then part == []
    else
      var g := pick(out[|out| - 1]);
      if g.Some? then part != [] && part[|part| - 1] == g.value && Selects(out[..|out| - 1], pick, part[..|part| - 1])
      else Selects(out[..|out| - 1], pick, part)
  }

  /** An application rule, unless the name is empty. */
  function PickApp(g: Egress): Option<string> {
    match g
    case AppEgress(app) => if app == "" then None else Some(app)
    case HostEgress(_) => None
  }

  /** An external host, unless the name is empty. */
  function PickHost(g: Egress): Option<string> {
    match g
    case AppEgress(_) => None
    case HostEgress(host) => if host == "" then None else Some(host)
  }

  /** What url.Parse yields as the host, with its port; None stands for a parse error. */
  type HostParser = string -> Option<string>

  /** The hosts of the providers' key URLs, in order; a URL that does not parse is skipped. */
  method GetEgressesFromAuth(parse: HostParser, providers: seq<AuthProvider>) returns (hosts: seq<string>)
    ensures Selects(providers, (p: AuthProvider) => parse(p.jwkUrl), hosts)
  {
    hosts := [];
    ghost var pick := (p: AuthProvider) => parse(p.jwkUrl);
    for i := 0 to |providers|
      invariant Selects(providers[..i], pick, hosts)
    {
      assert providers[..i + 1][..i] == providers[..i];
      var host := parse(providers[i].jwkUrl);
      if host.Some? {
        hosts := hosts + [host.value];
        assert hosts[..|hosts| - 1] + [host.value] == hosts;
      }
    }
    assert providers[..|providers|] == providers;
  }

  /** How many of the egresses have a name. */
  function Named(egresses: seq<Egress>): nat {
    if egresses == [] then 0
    else Named(egresses[..|egresses| - 1]) + (if KeyOf(egresses[|egresses| - 1]) == "" then 0 else 1)
  }

  /** Splits the egresses over rules and externals, after the hosts of the auth providers. */
  method OutboundOf(authHosts: seq<string>, egresses: seq<Egress>) returns (r: Outbound)
    ensures Selects(egresses, PickApp, r.rules)
    ensures authHosts <= r.external && Selects(egresses, PickHost, r.external[|authHosts|..])
    ensures |r.rules| + |r.external| == |authHosts| + Named(egresses)
  {
    var rules, external := [], authHosts;
    for i := 0 to |egresses|
      invariant Selects(egresses[..i], PickApp, rules)
      invariant authHosts <= external && Selects(egresses[..i], PickHost, external[|authHosts|..])
      invariant |rules| + |external| == |authHosts| + Named(egresses[..i])
    {
      assert egresses[..i + 1][..i] == egresses[..i];
      match egresses[i] {
        case AppEgress(app) =>
          if app != "" {
            rules := rules + [app];
            assert rules[..|rules| - 1] + [app] == rules;
          }
        case HostEgress(host) =>
          if host != "" {
            ghost var tail := external[|authHosts|..];
            external := external + [host];
            assert external[|authHosts|..] == tail + [host];
          }
      }
    }
    assert egresses[..|egresses|] == egresses;
    r := Outbound(rules, external);
  }

  lemma {:induction false} AllNamed(egresses: seq<Egress>)
    requires forall a :: 0 <= a < |egresses| ==> KeyOf(egresses[a]) != ""
    ensures Named(egresses) == |egresses|
  {
    if egresses != [] {
      AllNamed(egresses[..|egresses| - 1]);
    }
  }

  lemma CoversNamed(parse: Parser, eps: seq<Endpoint>, out: seq<Egress>)
    requires Covers(parse, eps, out)
    ensures forall a :: 0 <= a < |out| ==> KeyOf(out[a]) != ""
  {
    forall a | 0 <= a < |out| ensures KeyOf(out[a]) != "" {
      assert IsFirstWant(parse, eps, out[a]);
      var i: nat :| FirstWanted(parse, eps, out[a], i);
    }
  }

  /** The egress part of ToApp: what the resources want, split by kind, after the hosts of the providers. */
  method EgressOf(hostOf: HostParser, parse: Parser, providers: seq<AuthProvider>, items: seq<ApiEndpoints>)
    returns (r: Outbound, authHosts: seq<string>, egresses: seq<Egress>)
    ensures Selects(providers, (p: AuthProvider) => hostOf(p.jwkUrl), authHosts)
    ensures Covers(parse, AllEndpoints(items), egresses)
    ensures Selects(egresses, PickApp, r.rules)
    ensures authHosts <= r.external && Selects(egresses, PickHost, r.external[|authHosts|..])
    ensures |r.rules| + |r.external| == |authHosts| + |egresses|
  {
    authHosts := GetEgressesFromAuth(hostOf, providers);
    egresses := GetEgresses(parse, items);
    r := OutboundOf(authHosts, egresses);
    CoversNamed(parse, AllEndpoints(items), egresses);
    AllNamed(egresses);
  }
}
