/**
 * The routing part of the front proxy's request handler
 * (front-proxy/worker.js, `handleRequest`): the root path serves the
 * homepage; any other path goes to the first configured service whose path
 * is a prefix of it, with the rest of the path (or "/") forwarded; a path
 * no service claims is answered with 404.
 */
module Proxy {
  import opened Wrappers

  /** One entry of the service configuration. */
  datatype Service = Service(id: string, path: string, target: string)

  /** What the handler decides to do with a request path. */
  datatype Route =
    | Homepage                                           // the generated page
    | Proxied(service: Service, remainingPath: string)   // forwarded to the service's target
    | NotFound                                           // 404 "Service not found"

  /** The service configuration as written in the worker, in its key order. */
  const Services: seq<Service> := [
    Service("proxmox", "/proxmox", "https://home.stanodn.org:8006"),
    Service("vps", "/vps", "https://vps.stanodn.org"),
    Service("s3", "/s3", "https://home.stanodn.org:9000")
  ]

  /** `path.startsWith(prefix)`. */
  predicate StartsWith(path: string, prefix: string) {
    prefix <= path
  }

  /** No service before index n claims the path. */
  predicate NoMatchBefore(services: seq<Service>, path: string, n: nat)
    requires n <= |services|
  {
    forall j :: 0 <= j < n ==> !StartsWith(path, services[j].path)
  }

  /** The index of the first service, in configuration order, whose path is a prefix of the request path. */
  function FirstMatch(services: seq<Service>, path: string): (r: Option<nat>)
    ensures r.Some? ==> r.value < |services| && StartsWith(path, services[r.value].path)
                        && NoMatchBefore(services, path, r.value)
    ensures r.None? ==> NoMatchBefore(services, path, |services|)
    decreases |services|
  {
    if services == [] then None
    else if StartsWith(path, services[0].path) then Some(0)
    else
      match FirstMatch(services[1..], path)
      case None => None
      case Some(k) => Some(k + 1)
  }

  /** `path.substring(service.path.length) || "/"`: the empty remainder becomes "/". */
  function Remainder(path: string, servicePath: string): (rest: string)
    requires StartsWith(path, servicePath)
    ensures rest != ""
    ensures |path| > |servicePath| ==> servicePath + rest == path
    ensures |path| == |servicePath| ==> rest == "/"
  {
    var rest := path[|servicePath|..];
    assert path == servicePath + rest;
    if rest == "" then "/" else rest
  }

  /** The routing decision for a request path. */
  function RouteOf(services: seq<Service>, path: string): (r: Route)
    ensures r.Homepage? <==> path == "/" || path == ""
    ensures r.NotFound? <==> path != "/" && path != "" && NoMatchBefore(services, path, |services|)
    ensures r.Proxied? ==> r.remainingPath != ""
    ensures r.Proxied? ==>
              exists k :: 0 <= k < |services| && services[k] == r.service && StartsWith(path, r.service.path)
                          && NoMatchBefore(services, path, k) && r.remainingPath == Remainder(path, r.service.path)
  {
    if path == "/" || path == "" then Homepage
    else
      match FirstMatch(services, path)
      case None => NotFound
      case Some(k) => Proxied(services[k], Remainder(path, services[k].path))
  }

  /**
   * The handler's routing: the homepage check, then the loop over the
   * services that stops at the first whose path is a prefix, then 404 when
   * none was found.
   */
  method HandleRequest(services: seq<Service>, path: string) returns (r: Route)
    ensures r == RouteOf(services, path)
  {
    if path == "/" || path == "" {
      return Homepage;
    }
    var targetService: Option<Service> := None;
    var remainingPath := "";
    var i := 0;
    while i < |services|
      invariant 0 <= i <= |services|
      invariant NoMatchBefore(services, path, i)
    {
      var service := services[i];
      if StartsWith(path, service.path) {
        targetService := Some(service);
        remainingPath := path[|service.path|..];
        if remainingPath == "" {
          remainingPath := "/";
        }
        FirstMatchAt(services, path, i);
        break;
      }
      i := i + 1;
    }
    if targetService.None? {
      return NotFound;
    }
    return Proxied(targetService.value, remainingPath);
  }

  /** A service whose path is a prefix and that no earlier service precedes is the one FirstMatch picks. */
  lemma FirstMatchAt(services: seq<Service>, path: string, k: nat)
    requires k < |services| && StartsWith(path, services[k].path) && NoMatchBefore(services, path, k)
    ensures FirstMatch(services, path) == Some(k)
  {
  }

  /**
   * A non-root path goes to the first service, in configuration order,
   * whose path is a prefix of it, with the rest of the path forwarded (the
   * converse is RouteOf's last postcondition).
   */
  lemma FirstPrefixWins(services: seq<Service>, path: string, k: nat)
    requires path != "/" && path != ""
    requires k < |services| && StartsWith(path, services[k].path) && NoMatchBefore(services, path, k)
    ensures RouteOf(services, path) == Proxied(services[k], Remainder(path, services[k].path))
  {
    FirstMatchAt(services, path, k);
  }

  /**
   * With the worker's configuration: matching is by plain prefix, not by
   * path segment, so "/vpsx" reaches the VPS service with remainder "x";
   * the bare service path forwards "/"; a longer path keeps its slash; an
   * unknown path is not found.
   */
  lemma ConfiguredRoutes()
    ensures RouteOf(Services, "/vpsx") == Proxied(Services[1], "x")
    ensures RouteOf(Services, "/vps") == Proxied(Services[1], "/")
    ensures RouteOf(Services, "/s3/bucket") == Proxied(Services[2], "/bucket")
    ensures RouteOf(Services, "/grafana") == NotFound
  {
    assert !StartsWith("/vpsx", "/proxmox");
    FirstPrefixWins(Services, "/vpsx", 1);
    assert !StartsWith("/vps", "/proxmox");
    FirstPrefixWins(Services, "/vps", 1);
    assert "/s3/bucket"[1] != "/proxmox"[1] && "/s3/bucket"[1] != "/vps"[1];
    FirstPrefixWins(Services, "/s3/bucket", 2);
    assert "/grafana"[1] != "/proxmox"[1] && "/grafana"[1] != "/vps"[1] && "/grafana"[1] != "/s3"[1];
  }
}
