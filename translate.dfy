/**
 * The per-container translation: every router that has a port label gets a
 * backend URL built from the bind IP and that port in the service it
 * points at, and every decoded container's fragment is recorded under its
 * identifier.
 */
module Translate {
  import opened Dynamic
  import opened Podman
  import opened Binding

  /** Why a run of the translator produced no configuration. */
  datatype Failure =
    | ListFailed(message: string)      // connecting to the runtime or listing containers failed
    | NilLoadBalancer(service: string) // runtime panic: the service has no servers load balancer
    | NoServers(service: string)       // runtime panic: index 0 of an empty server list

  /** `scheme://host:port`. */
  function Url(scheme: string, host: string, port: string): (u: string)
    ensures |u| == |scheme| + |host| + |port| + 4
  {
    scheme + "://" + host + ":" + port
  }

  /** The service a router targets: its own name when its service is unset. */
  function ServiceName(router: Router, routerName: string): string
  {
    if router.service == "" then routerName else router.service
  }

  /** A server record with only its URL set. */
  function UrlServer(url: string): Server
  {
    Server(url, "", "")
  }

  /** The service made for a name the fragment does not define. */
  function NewService(bindingIp: string, port: string): (s: Service)
    ensures Usable(s) && |s.loadBalancer.value.servers| == 1
    ensures s.loadBalancer.value.servers[0].url != ""
  {
    Service(Some(ServersLoadBalancer([UrlServer(Url("http", bindingIp, port))])))
  }

  /** A service whose first server can be read: the Go code indexes it unguarded. */
  predicate Usable(service: Service)
  {
    service.loadBalancer.Some? && |service.loadBalancer.value.servers| > 0
  }

  /**
   * The server list after one router is translated: an empty first URL is
   * filled from that server's own scheme and port, otherwise a plain HTTP
   * server is appended.
   */
  function AddBackend(servers: seq<Server>, bindingIp: string, port: string): (r: seq<Server>)
    requires |servers| > 0
    ensures |r| == if servers[0].url == "" then |servers| else |servers| + 1
    ensures r[0].url != ""
    ensures servers[0].url != "" ==> r[0] == servers[0]
    ensures forall k :: 1 <= k < |servers| ==> r[k] == servers[k]
  {
    if servers[0].url == "" then
      servers[0 := servers[0].(url := Url(servers[0].scheme, bindingIp, servers[0].port))]
    else
      servers + [UrlServer(Url("http", bindingIp, port))]
  }

  /** The effect of one iteration of the loop over a fragment's routers. */
  function RouterStep(cfg: HttpConfiguration, routerName: string, labels: Labels,
                      ports: seq<PortMapping>, ip: string): (r: Result<HttpConfiguration, Failure>)
    requires routerName in cfg.routers
    ensures r.Ok? ==> r.value.routers.Keys == cfg.routers.Keys
    ensures r.Err? ==> r.error.NilLoadBalancer? || r.error.NoServers?
  {
    var key := PortLabel(routerName);
    if key !in labels then Ok(cfg)
    else
      var port := labels[key];
      var bindingIp := BindingIp(ip, ports, port);
      var router := cfg.routers[routerName];
      var name := ServiceName(router, routerName);
      var routers := if router.service == "" then cfg.routers[routerName := router.(service := routerName)]
                     else cfg.routers;
      var service := if name in cfg.services then cfg.services[name] else NewService(bindingIp, port);
      match service.loadBalancer
      case None => Err(NilLoadBalancer(name))
      case Some(lb) =>
        if |lb.servers| == 0 then Err(NoServers(name))
        else
          var lb' := lb.(servers := AddBackend(lb.servers, bindingIp, port));
          Ok(HttpConfiguration(routers, cfg.services[name := service.(loadBalancer := Some(lb'))]))
  }

  /** One iteration of the router loop, statement by statement. */
  method TranslateRouter(cfg: HttpConfiguration, routerName: string, labels: Labels,
                         ports: seq<PortMapping>, ip: string) returns (r: Result<HttpConfiguration, Failure>)
    requires routerName in cfg.routers
    ensures r == RouterStep(cfg, routerName, labels, ports, ip)
  {
    var key := PortLabel(routerName);
    if key !in labels {
      return Ok(cfg);
    }
    var port := labels[key];
    var bindingIp := ResolveBindingIp(ip, ports, port);
    var routers := cfg.routers;
    var router := routers[routerName];
    var serviceName := router.service;
    if serviceName == "" {
      serviceName := routerName;
      routers := routers[routerName := router.(service := routerName)];
    }
    var service: Service;
    if serviceName in cfg.services {
      service := cfg.services[serviceName];
    } else {
      service := NewService(bindingIp, port);
    }
    if service.loadBalancer.None? {
      return Err(NilLoadBalancer(serviceName));
    }
    var lb := service.loadBalancer.value;
    var servers := lb.servers;
    if |servers| == 0 {
      return Err(NoServers(serviceName));
    }
    if servers[0].url == "" {
      servers := servers[0 := servers[0].(url := Url(servers[0].scheme, bindingIp, servers[0].port))];
    } else {
      servers := servers + [UrlServer(Url("http", bindingIp, port))];
    }
    service := service.(loadBalancer := Some(lb.(servers := servers)));
    r := Ok(HttpConfiguration(routers, cfg.services[serviceName := service]));
  }

  /** The router loop over one fragment, visiting routers in the order `order`. */
  function RoutersStep(cfg: HttpConfiguration, order: seq<string>, labels: Labels,
                       ports: seq<PortMapping>, ip: string): (r: Result<HttpConfiguration, Failure>)
    requires forall n :: n in order ==> n in cfg.routers
    ensures r.Ok? ==> r.value.routers.Keys == cfg.routers.Keys
    ensures r.Err? ==> r.error.NilLoadBalancer? || r.error.NoServers?
    decreases |order|
  {
    if order == [] then Ok(cfg)
    else
      match RouterStep(cfg, order[0], labels, ports, ip)
      case Err(e) => Err(e)
      case Ok(next) => RoutersStep(next, order[1..], labels, ports, ip)
  }

  method TranslateRouters(cfg: HttpConfiguration, order: seq<string>, labels: Labels,
                          ports: seq<PortMapping>, ip: string) returns (r: Result<HttpConfiguration, Failure>)
    requires forall n :: n in order ==> n in cfg.routers
    ensures r == RoutersStep(cfg, order, labels, ports, ip)
  {
    var current := cfg;
    var i := 0;
    while i < |order|
      invariant 0 <= i <= |order|
      invariant current.routers.Keys == cfg.routers.Keys
      invariant RoutersStep(current, order[i..], labels, ports, ip) == RoutersStep(cfg, order, labels, ports, ip)
    {
      assert order[i..][0] == order[i] && order[i..][1..] == order[i + 1..];
      var step := TranslateRouter(current, order[i], labels, ports, ip);
      if step.Err? {
        return step;
      }
      current := step.value;
      i := i + 1;
    }
    r := Ok(current);
  }

  /** The translated fragment of container `c`; its TCP and UDP sections are kept. */
  function TranslateFragment(config: Configuration, order: seq<string>, c: Container, ip: string)
    : (r: Result<Configuration, Failure>)
    requires forall n :: n in order ==> n in config.http.routers
    ensures r.Ok? ==> r.value.tcp == config.tcp && r.value.udp == config.udp
    ensures r.Ok? ==> r.value.http.routers.Keys == config.http.routers.Keys
    ensures r.Err? ==> r.error.NilLoadBalancer? || r.error.NoServers?
  {
    match RoutersStep(config.http, order, c.labels, c.ports, ip)
    case Err(e) => Err(e)
    case Ok(http) => Ok(config.(http := http))
  }

  /** `order` visits every router of `routers` exactly once. */
  predicate RouterOrder(order: seq<string>, routers: map<string, Router>)
  {
    (forall n :: n in order ==> n in routers) &&
    (forall n :: n in routers ==> n in order) &&
    (forall i, j :: 0 <= i < j < |order| ==> order[i] != order[j])
  }

  /**
   * `schedule[i]` is the order in which the routers of container `i`'s
   * decoded fragment are visited (the Go code ranges over a map, whose order
   * is unspecified).
   */
  predicate WellScheduled(cs: seq<Container>, schedule: seq<seq<string>>,
                          decode: Labels -> Result<Configuration, string>)
  {
    |schedule| == |cs| &&
    forall i :: 0 <= i < |cs| && decode(cs[i].labels).Ok? ==>
      RouterOrder(schedule[i], decode(cs[i].labels).value.http.routers)
  }

  /** The container loop, continuing from the configurations `configs` recorded so far. */
  function TranslateContainers(configs: map<string, Configuration>, cs: seq<Container>,
                               schedule: seq<seq<string>>, decode: Labels -> Result<Configuration, string>,
                               ip: string): (r: Result<map<string, Configuration>, Failure>)
    requires WellScheduled(cs, schedule, decode)
    ensures r.Err? ==> r.error.NilLoadBalancer? || r.error.NoServers?
    decreases |cs|
  {
    if cs == [] then Ok(configs)
    else
      assert WellScheduled(cs[1..], schedule[1..], decode) by {
        forall i | 0 <= i < |cs| - 1 ensures cs[1..][i] == cs[i + 1] && schedule[1..][i] == schedule[i + 1] { }
      }
      match decode(cs[0].labels)
      case Err(_) => TranslateContainers(configs, cs[1..], schedule[1..], decode, ip)
      case Ok(config) =>
        match TranslateFragment(config, schedule[0], cs[0], ip)
        case Err(e) => Err(e)
        case Ok(translated) => TranslateContainers(configs[cs[0].id := translated], cs[1..], schedule[1..], decode, ip)
  }

  /**
   * The whole translator: list the containers, translate each decoded
   * fragment, and merge the recorded fragments with `merge`.
   */
  method GetTraefikConfig(listing: Result<seq<Container>, string>, schedule: seq<seq<string>>,
                          decode: Labels -> Result<Configuration, string>,
                          merge: map<string, Configuration> -> Configuration,
                          ip: string) returns (r: Result<Configuration, Failure>)
    requires listing.Ok? ==> WellScheduled(listing.value, schedule, decode)
    ensures listing.Err? ==> r == Err(ListFailed("unable to list containers: " + listing.error))
    ensures listing.Ok? ==>
      r == match TranslateContainers(map[], listing.value, schedule, decode, ip)
           case Err(e) => Err(e)
           case Ok(configs) => Ok(merge(configs))
  {
    if listing.Err? {
      return Err(ListFailed("unable to list containers: " + listing.error));
    }
    var cs := listing.value;
    var configs: map<string, Configuration> := map[];
    var i := 0;
    while i < |cs|
      invariant 0 <= i <= |cs|
      invariant WellScheduled(cs[i..], schedule[i..], decode)
      invariant TranslateContainers(configs, cs[i..], schedule[i..], decode, ip)
             == TranslateContainers(map[], cs, schedule, decode, ip)
    {
      assert cs[i..][0] == cs[i] && cs[i..][1..] == cs[i + 1..];
      assert schedule[i..][0] == schedule[i] && schedule[i..][1..] == schedule[i + 1..];
      var container := cs[i];
      var decoded := decode(container.labels);
      if decoded.Ok? {
        var config := decoded.value;
        var http := TranslateRouters(config.http, schedule[i], container.labels, container.ports, ip);
        if http.Err? {
          return Err(http.error);
        }
        configs := configs[container.id := config.(http := http.value)];
      }
      i := i + 1;
    }
    r := Ok(merge(configs));
  }
}
