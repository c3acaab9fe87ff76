/** The compiler from ApiEndpoints specs to KrakenD gateway endpoints (internal/krakend/parser.go). */
module GatewayCompiler {
  import opened ApiTypes
  import opened Sequences

  datatype Backend = Backend(verb: string, host: seq<string>, urlPattern: string, encoding: string)

  datatype AuthValidator = AuthValidator(
    operationDebug: bool, alg: string, cache: bool, jwkUrl: string, issuer: string,
    audience: seq<string>, scope: seq<string>, scopesKey: string)

  datatype RateLimitRouter = RateLimitRouter(
    maxRate: int, clientMaxRate: int, every: string, key: string,
    strategy: string, capacity: int, clientCapacity: int)

  datatype ExtraConfig = ExtraConfig(
    authValidator: Option<AuthValidator>, rateLimit: Option<RateLimitRouter>)

  datatype GatewayEndpoint = GatewayEndpoint(
    endpoint: string, verb: string, outputEncoding: string,
    inputQueryStrings: seq<string>, inputHeaders: seq<string>,
    extraConfig: ExtraConfig, backend: seq<Backend>, timeout: string)

  const DEFAULT_OUTPUT_ENCODING := "no-op"
  const DEFAULT_SCOPES_KEY := "scope"

  // ----- pure field mapping -----

  function ParseEndpoint(e: Endpoint): GatewayEndpoint {
    GatewayEndpoint(
      e.path, e.verb, DEFAULT_OUTPUT_ENCODING, e.queryParams, e.forwardHeaders,
      ExtraConfig(None, None),
      [Backend(e.verb, [e.backendHost], e.backendPath, DEFAULT_OUTPUT_ENCODING)],
      e.timeout)
  }

  function ParseRateLimit(r: Option<RateLimit>): Option<RateLimitRouter> {
    match r
    case None => None
    case Some(l) => Some(RateLimitRouter(l.maxRate, l.clientMaxRate, l.every, l.key,
                                         l.strategy, l.capacity, l.clientCapacity))
  }

  // ----- reference: what the gateway must serve -----

  /** One endpoint of a resource with everything of the resource that governs it. */
  datatype Source = Source(endpoint: Endpoint, protected: bool, auth: Auth, rateLimit: Option<RateLimit>)

  function SourcesOf(spec: Spec): (r: seq<Source>)
    ensures |r| == |spec.endpoints| + |spec.openEndpoints|
  {
    seq(|spec.endpoints|, i requires 0 <= i < |spec.endpoints| =>
      Source(spec.endpoints[i], true, spec.auth, spec.rateLimit))
    + seq(|spec.openEndpoints|, i requires 0 <= i < |spec.openEndpoints| =>
      Source(spec.openEndpoints[i], false, spec.auth, spec.rateLimit))
  }

  function Sources(items: seq<ApiEndpoints>): seq<Source> {
    if items == [] then []
    else Sources(items[..|items| - 1]) + SourcesOf(items[|items| - 1].spec)
  }

  /** Reads a gateway endpoint back as the endpoint it serves. */
  function ReadBack(g: GatewayEndpoint): Option<Endpoint> {
    if |g.backend| == 1 && |g.backend[0].host| == 1 && g.backend[0].verb == g.verb then
      Some(Endpoint(g.endpoint, g.verb, g.backend[0].host[0], g.backend[0].urlPattern,
                    g.inputHeaders, g.inputQueryStrings, g.timeout))
    else None
  }

  function ReadRateLimit(r: Option<RateLimitRouter>): Option<RateLimit> {
    match r
    case None => None
    case Some(l) => Some(RateLimit(l.maxRate, l.clientMaxRate, l.every, l.key,
                                   l.strategy, l.capacity, l.clientCapacity))
  }

  /** `v` authenticates with the first provider of `k` that carries the name in `auth`. */
  ghost predicate ValidatesWith(k: Krakend, auth: Auth, v: AuthValidator) {
    && v.operationDebug == auth.debug && v.cache == auth.cache
    && v.audience == auth.audience && v.scope == auth.scope && v.scopesKey == "scope"
    && exists i :: (
         && 0 <= i < |k.providers| && k.providers[i].name == auth.name
         && (forall j :: 0 <= j < i ==> k.providers[j].name != auth.name)
         && v.alg == k.providers[i].alg && v.jwkUrl == k.providers[i].jwkUrl
         && v.issuer == k.providers[i].issuer)
  }

  /** `g` serves `src`: same routing, same rate limit, a validator exactly when protected. */
  ghost predicate Serves(k: Krakend, src: Source, g: GatewayEndpoint) {
    && ReadBack(g) == Some(src.endpoint)
    && g.outputEncoding == "no-op" && (|g.backend| == 1 ==> g.backend[0].encoding == "no-op")
    && ReadRateLimit(g.extraConfig.rateLimit) == src.rateLimit
    && (src.protected ==>
          g.extraConfig.authValidator.Some?
          && ValidatesWith(k, src.auth, g.extraConfig.authValidator.value))
    && (!src.protected ==> g.extraConfig.authValidator.None?)
  }

  ghost predicate AllServed(k: Krakend, srcs: seq<Source>, out: seq<GatewayEndpoint>) {
    |out| == |srcs| && forall p :: 0 <= p < |srcs| ==> Serves(k, srcs[p], out[p])
  }

  ghost predicate AllProvided(k: Krakend, items: seq<ApiEndpoints>) {
    forall i :: 0 <= i < |items| ==> ProviderNamed(k, items[i].spec.auth.name)
  }

  // ----- the code -----

  method FindAuthProvider(k: Krakend, auth: Auth) returns (r: Option<AuthValidator>)
    ensures r.Some? <==> ProviderNamed(k, auth.name)
    ensures r.Some? ==> ValidatesWith(k, auth, r.value)
  {
    for i := 0 to |k.providers|
      invariant forall j :: 0 <= j < i ==> k.providers[j].name != auth.name
    {
      var p := k.providers[i];
      if p.name == auth.name {
        return Some(AuthValidator(auth.debug, p.alg, auth.cache, p.jwkUrl, p.issuer,
                                  auth.audience, auth.scope, DEFAULT_SCOPES_KEY));
      }
    }
    return None;
  }

  method ParseKrakendEndpointsSpec(k: Krakend, spec: Spec) returns (r: Option<seq<GatewayEndpoint>>)
    ensures r.Some? <==> ProviderNamed(k, spec.auth.name)
    ensures r.Some? ==> AllServed(k, SourcesOf(spec), r.value)
  {
    var auth := FindAuthProvider(k, spec.auth);
    if auth.None? {
      return None;
    }
    var endpoints := [];
    ghost var srcs := SourcesOf(spec);
    for i := 0 to |spec.endpoints|
      invariant AllServed(k, srcs[..i], endpoints)
    {
      var g := ParseEndpoint(spec.endpoints[i]);
      g := g.(extraConfig := g.extraConfig.(authValidator := auth));
      g := g.(extraConfig := g.extraConfig.(rateLimit := ParseRateLimit(spec.rateLimit)));
      assert Serves(k, srcs[i], g);
      endpoints := endpoints + [g];
    }
    for i := 0 to |spec.openEndpoints|
      invariant AllServed(k, srcs[..|spec.endpoints| + i], endpoints)
    {
      var g := ParseEndpoint(spec.openEndpoints[i]);
      g := g.(extraConfig := ExtraConfig(None, None));
      g := g.(extraConfig := g.extraConfig.(rateLimit := ParseRateLimit(spec.rateLimit)));
      assert Serves(k, srcs[|spec.endpoints| + i], g);
      endpoints := endpoints + [g];
    }
    assert srcs[..|spec.endpoints| + |spec.openEndpoints|] == srcs;
    return Some(endpoints);
  }

  method ToKrakendEndpoints(k: Krakend, list: seq<ApiEndpoints>) returns (r: Option<seq<GatewayEndpoint>>)
    ensures r.Some? <==> AllProvided(k, list)
    ensures r.Some? ==> AllServed(k, Sources(list), r.value)
    ensures r == Compile(k, list)
  {
    var endpoints := [];
    for i := 0 to |list|
      invariant AllProvided(k, list[..i])
      invariant AllServed(k, Sources(list[..i]), endpoints)
    {
      var parsed := ParseKrakendEndpointsSpec(k, list[i].spec);
      assert list[..i + 1][..i] == list[..i] && list[..i + 1][i] == list[i];
      if parsed.None? {
        assert !AllProvided(k, list);
        CompileMeaning(k, list);
        return None;
      }
      endpoints := endpoints + parsed.value;
    }
    assert list[..|list|] == list;
    CompileMeaning(k, list);
    ServedUnique(k, Sources(list), endpoints, Compile(k, list).value);
    return Some(endpoints);
  }

  // ----- the same result as a function, for use in the protocol -----

  function FirstProvider(providers: seq<AuthProvider>, name: string): (r: Option<AuthProvider>)
    ensures r.Some? <==> exists i :: 0 <= i < |providers| && providers[i].name == name
    ensures r.Some? ==> exists i :: 0 <= i < |providers| && providers[i] == r.value
                                    && providers[i].name == name
                                    && forall j :: 0 <= j < i ==> providers[j].name != name
  {
    if providers == [] then None
    else if providers[0].name == name then Some(providers[0])
    else
      var r := FirstProvider(providers[1..], name);
      assert forall i :: 0 <= i < |providers| - 1 ==> providers[1..][i] == providers[i + 1];
      assert r.Some? ==> exists i :: 0 <= i < |providers| && providers[i] == r.value
                                    && providers[i].name == name
                                    && forall j :: 0 <= j < i ==> providers[j].name != name by {
        if r.Some? {
          var i :| 0 <= i < |providers[1..]| && providers[1..][i] == r.value
                                    && providers[1..][i].name == name
                                    && forall j :: 0 <= j < i ==> providers[1..][j].name != name;
          assert providers[i + 1] == r.value;
          forall j | 0 <= j < i + 1 ensures providers[j].name != name {
            if j > 0 { assert providers[1..][j - 1] == providers[j]; }
          }
        }
      }
      r
  }

  function Entry(p: AuthProvider, src: Source): GatewayEndpoint {
    var v := AuthValidator(src.auth.debug, p.alg, src.auth.cache, p.jwkUrl, p.issuer,
                           src.auth.audience, src.auth.scope, DEFAULT_SCOPES_KEY);
    ParseEndpoint(src.endpoint).(extraConfig :=
      ExtraConfig(if src.protected then Some(v) else None, ParseRateLimit(src.rateLimit)))
  }

  function CompileSpec(k: Krakend, spec: Spec): Option<seq<GatewayEndpoint>> {
    match FirstProvider(k.providers, spec.auth.name)
    case None => None
    case Some(p) =>
      var srcs := SourcesOf(spec);
      Some(seq(|srcs|, i requires 0 <= i < |srcs| => Entry(p, srcs[i])))
  }

  function Compile(k: Krakend, items: seq<ApiEndpoints>): Option<seq<GatewayEndpoint>> {
    if items == [] then Some([])
    else
      var front := Compile(k, items[..|items| - 1]);
      var last := CompileSpec(k, items[|items| - 1].spec);
      if front.Some? && last.Some? then Some(front.value + last.value) else None
  }

  lemma CompileSpecMeaning(k: Krakend, spec: Spec)
    ensures CompileSpec(k, spec).Some? <==> ProviderNamed(k, spec.auth.name)
    ensures CompileSpec(k, spec).Some? ==> AllServed(k, SourcesOf(spec), CompileSpec(k, spec).value)
  {
  }

  lemma AllServedConcat(k: Krakend, srcs: seq<Source>, out: seq<GatewayEndpoint>,
                        srcs': seq<Source>, out': seq<GatewayEndpoint>)
    requires AllServed(k, srcs, out) && AllServed(k, srcs', out')
    ensures AllServed(k, srcs + srcs', out + out')
  {
  }

  /** Compilation fails exactly when some item names no provider; otherwise it serves every source, in order. */
  lemma {:induction false} CompileMeaning(k: Krakend, items: seq<ApiEndpoints>)
    ensures Compile(k, items).Some? <==> AllProvided(k, items)
    ensures Compile(k, items).Some? ==> AllServed(k, Sources(items), Compile(k, items).value)
  {
    if items != [] {
      var front, last := items[..|items| - 1], items[|items| - 1];
      CompileMeaning(k, front);
      CompileSpecMeaning(k, last.spec);
      assert AllProvided(k, items) <==> AllProvided(k, front) && ProviderNamed(k, last.spec.auth.name) by {
        assert forall i :: 0 <= i < |front| ==> front[i] == items[i];
      }
      if Compile(k, items).Some? {
        AllServedConcat(k, Sources(front), Compile(k, front).value,
                        SourcesOf(last.spec), CompileSpec(k, last.spec).value);
      }
    }
  }

  /** A source determines its gateway endpoint: the compiled form carries no freedom. */
  lemma ServesUnique(k: Krakend, src: Source, g: GatewayEndpoint, h: GatewayEndpoint)
    requires Serves(k, src, g) && Serves(k, src, h)
    ensures g == h
  {
    assert g.backend == [g.backend[0]] && h.backend == [h.backend[0]];
    assert g.backend[0].host == [g.backend[0].host[0]] && h.backend[0].host == [h.backend[0].host[0]];
    if src.protected {
      var v, w := g.extraConfig.authValidator.value, h.extraConfig.authValidator.value;
      var i :| 0 <= i < |k.providers| && k.providers[i].name == src.auth.name
         && (forall j :: 0 <= j < i ==> k.providers[j].name != src.auth.name)
         && v.alg == k.providers[i].alg && v.jwkUrl == k.providers[i].jwkUrl
         && v.issuer == k.providers[i].issuer;
      var i' :| 0 <= i' < |k.providers| && k.providers[i'].name == src.auth.name
         && (forall j :: 0 <= j < i' ==> k.providers[j].name != src.auth.name)
         && w.alg == k.providers[i'].alg && w.jwkUrl == k.providers[i'].jwkUrl
         && w.issuer == k.providers[i'].issuer;
      assert i == i';
      assert v == w;
    }
  }

  lemma ServedUnique(k: Krakend, srcs: seq<Source>, out: seq<GatewayEndpoint>, out': seq<GatewayEndpoint>)
    requires AllServed(k, srcs, out) && AllServed(k, srcs, out')
    ensures out == out'
  {
    forall p | 0 <= p < |srcs| ensures out[p] == out'[p] {
      ServesUnique(k, srcs[p], out[p], out'[p]);
    }
  }

  // ----- consequences used by the protocol -----

  function EndpointPaths(out: seq<GatewayEndpoint>): (r: seq<string>)
    ensures |r| == |out| && forall i :: 0 <= i < |out| ==> r[i] == out[i].endpoint
  {
    seq(|out|, i requires 0 <= i < |out| => out[i].endpoint)
  }

  function SourcePaths(srcs: seq<Source>): (r: seq<string>)
    ensures |r| == |srcs| && forall i :: 0 <= i < |srcs| ==> r[i] == srcs[i].endpoint.path
  {
    seq(|srcs|, i requires 0 <= i < |srcs| => srcs[i].endpoint.path)
  }

  lemma {:induction false} SourcePathsConcat(a: seq<Source>, b: seq<Source>)
    ensures SourcePaths(a + b) == SourcePaths(a) + SourcePaths(b)
  {
  }

  lemma SpecPaths(spec: Spec)
    ensures SourcePaths(SourcesOf(spec)) == Paths(spec)
  {
  }

  lemma {:induction false} SourcePathsAreLivePaths(items: seq<ApiEndpoints>)
    requires forall i :: 0 <= i < |items| ==> !items[i].deleting
    ensures SourcePaths(Sources(items)) == LivePaths(items)
  {
    if items != [] {
      var front, last := items[..|items| - 1], items[|items| - 1];
      SourcePathsAreLivePaths(front);
      SpecPaths(last.spec);
      SourcePathsConcat(Sources(front), SourcesOf(last.spec));
    }
  }

  /** The compiled paths are, in order, the paths of the compiled resources. */
  lemma {:induction false} CompiledPaths(k: Krakend, items: seq<ApiEndpoints>)
    requires forall i :: 0 <= i < |items| ==> !items[i].deleting
    requires Compile(k, items).Some?
    ensures EndpointPaths(Compile(k, items).value) == LivePaths(items)
  {
    CompileMeaning(k, items);
    SourcePathsAreLivePaths(items);
    var out, srcs := Compile(k, items).value, Sources(items);
    forall p | 0 <= p < |srcs| ensures out[p].endpoint == srcs[p].endpoint.path {
      assert Serves(k, srcs[p], out[p]);
    }
    assert EndpointPaths(out) == SourcePaths(srcs);
  }

  /** Reordering the resources only reorders the compiled endpoints. */
  lemma {:induction false} CompilePermutation(k: Krakend, items: seq<ApiEndpoints>, items': seq<ApiEndpoints>)
    requires multiset(items) == multiset(items')
    ensures Compile(k, items).Some? <==> Compile(k, items').Some?
    ensures Compile(k, items).Some? ==>
              multiset(Compile(k, items).value) == multiset(Compile(k, items').value)
    decreases |items|
  {
    if items == [] {
      assert |multiset(items')| == 0;
      assert items' == [];
    } else {
      var j := PermutationSplit(items, items');
      CompilePermutation(k, items[..|items| - 1], RemoveAt(items', j));
      CompileRemove(k, items', j);
    }
  }

  lemma {:induction false} CompileRemove(k: Krakend, items: seq<ApiEndpoints>, j: nat)
    requires j < |items|
    ensures Compile(k, items).Some? <==>
              Compile(k, RemoveAt(items, j)).Some? && CompileSpec(k, items[j].spec).Some?
    ensures Compile(k, items).Some? ==>
              multiset(Compile(k, items).value)
              == multiset(Compile(k, RemoveAt(items, j)).value)
                 + multiset(CompileSpec(k, items[j].spec).value)
    decreases |items|
  {
    RemoveAtFront(items, j);
    if j < |items| - 1 {
      CompileRemove(k, items[..|items| - 1], j);
    }
  }
}
