/** The custom resources of the operator, as values of one namespace. */
module ApiTypes {

  datatype Option<+T> = None | Some(value: T)

  datatype Endpoint = Endpoint(
    path: string, verb: string, backendHost: string, backendPath: string,
    forwardHeaders: seq<string>, queryParams: seq<string>, timeout: string)

  datatype RateLimit = RateLimit(
    maxRate: int, clientMaxRate: int, every: string, key: string,
    strategy: string, capacity: int, clientCapacity: int)

  datatype Auth = Auth(
    name: string, cache: bool, debug: bool, audience: seq<string>, scope: seq<string>)

  datatype Spec = Spec(
    krakend: string, appName: string, auth: Auth, rateLimit: Option<RateLimit>,
    endpoints: seq<Endpoint>, openEndpoints: seq<Endpoint>)

  /** `hash == ""` means that the resource was never synchronized. */
  datatype Status = Status(timestamp: int, hash: string)

  datatype OwnerRef = OwnerRef(name: string, uid: nat)

  datatype ApiEndpoints = ApiEndpoints(
    name: string, uid: nat, version: nat,
    deleting: bool,            // a deletion timestamp is set
    finalizers: set<string>, owners: seq<OwnerRef>,
    spec: Spec, status: Status)

  datatype AuthProvider = AuthProvider(name: string, alg: string, jwkUrl: string, issuer: string)

  datatype Krakend = Krakend(name: string, uid: nat, providers: seq<AuthProvider>)

  const KRAKEND_FINALIZER := "finalizer.krakend.nais.io"

  /** The Krakend a spec names; the namespace's own name when it names none. */
  function KrakendName(ns: string, spec: Spec): string {
    if spec.krakend == "" then ns else spec.krakend
  }

  /** Gateway paths of one spec, protected endpoints first. */
  function Paths(spec: Spec): (r: seq<string>)
    ensures |r| == |spec.endpoints| + |spec.openEndpoints|
  {
    seq(|spec.endpoints|, i requires 0 <= i < |spec.endpoints| => spec.endpoints[i].path)
    + seq(|spec.openEndpoints|, i requires 0 <= i < |spec.openEndpoints| => spec.openEndpoints[i].path)
  }

  /** Paths of the live (not deleting) items of a list, in list order. */
  function LivePaths(items: seq<ApiEndpoints>): seq<string> {
    if items == [] then []
    else
      var last := items[|items| - 1];
      LivePaths(items[..|items| - 1]) + (if last.deleting then [] else Paths(last.spec))
  }

  predicate ProviderNamed(k: Krakend, name: string) {
    exists i :: 0 <= i < |k.providers| && k.providers[i].name == name
  }
}
