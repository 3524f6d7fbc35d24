/**
 * What translating one router, and then all the routers of one fragment,
 * does to the fragment.
 */
module RouterProperties {
  import opened Dynamic
  import opened Podman
  import opened Binding
  import opened Translate

  /** A router without a port label is skipped: the fragment is left as it was. */
  lemma RouterStepSkipsUnlabelled(cfg: HttpConfiguration, n: string, labels: Labels,
                                  ports: seq<PortMapping>, ip: string)
    requires n in cfg.routers && PortLabel(n) !in labels
    ensures RouterStep(cfg, n, labels, ports, ip) == Ok(cfg)
  {
  }

  /**
   * A labelled router ends up naming its service explicitly (its own name
   * when it was unset), that service is stored and has a server to read,
   * and every other router and service is left as it was.
   */
  lemma RouterStepNamesService(cfg: HttpConfiguration, n: string, labels: Labels,
                               ports: seq<PortMapping>, ip: string)
    requires n in cfg.routers && PortLabel(n) in labels
    ensures var r := RouterStep(cfg, n, labels, ports, ip);
            var name := ServiceName(cfg.routers[n], n);
            r.Ok? ==>
              r.value.routers[n] == cfg.routers[n].(service := name) &&
              (forall m :: m in cfg.routers && m != n ==> r.value.routers[m] == cfg.routers[m]) &&
              r.value.services.Keys == cfg.services.Keys + {name} &&
              Usable(r.value.services[name]) &&
              (forall x :: x in cfg.services && x != name ==> r.value.services[x] == cfg.services[x])
  {
  }

  /**
   * A labelled router whose service is not defined gets a new service with
   * two servers, both at `http://<bind IP>:<port>`: the one the service is
   * created with, and the one appended because its URL is already set.
   */
  lemma RouterStepCreatesService(cfg: HttpConfiguration, n: string, labels: Labels,
                                 ports: seq<PortMapping>, ip: string)
    requires n in cfg.routers && PortLabel(n) in labels
    requires ServiceName(cfg.routers[n], n) !in cfg.services
    ensures var port := labels[PortLabel(n)];
            var s := UrlServer(Url("http", BindingIp(ip, ports, port), port));
            var r := RouterStep(cfg, n, labels, ports, ip);
            r.Ok? && r.value.services[ServiceName(cfg.routers[n], n)] == Service(Some(ServersLoadBalancer([s, s])))
  {
    var port := labels[PortLabel(n)];
    var url := Url("http", BindingIp(ip, ports, port), port);
    var bindingIp := BindingIp(ip, ports, port);
    assert url[0] == 'h';
    assert AddBackend([UrlServer(url)], bindingIp, port) == [UrlServer(url), UrlServer(url)];
    assert NewService(bindingIp, port).loadBalancer.value.servers == [UrlServer(url)];
  }

  /**
   * When the service's first server has no URL, that URL is set from the
   * server's own scheme and port and the bind IP; the list keeps its length
   * and every other server.
   */
  lemma RouterStepFillsFirstServer(cfg: HttpConfiguration, n: string, labels: Labels,
                                   ports: seq<PortMapping>, ip: string)
    requires n in cfg.routers && PortLabel(n) in labels
    requires var name := ServiceName(cfg.routers[n], n);
             name in cfg.services && Usable(cfg.services[name]) &&
             cfg.services[name].loadBalancer.value.servers[0].url == ""
    ensures var name := ServiceName(cfg.routers[n], n);
            var port := labels[PortLabel(n)];
            var before := cfg.services[name].loadBalancer.value.servers;
            var r := RouterStep(cfg, n, labels, ports, ip);
            r.Ok? && Usable(r.value.services[name]) &&
            var after := r.value.services[name].loadBalancer.value.servers;
            |after| == |before| &&
            after[0] == before[0].(url := Url(before[0].scheme, BindingIp(ip, ports, port), before[0].port)) &&
            after[1..] == before[1..]
  {
  }

  /**
   * When the service's first server already has a URL, exactly one server
   * at `http://<bind IP>:<port>` is appended and the earlier ones are kept.
   */
  lemma RouterStepAppendsServer(cfg: HttpConfiguration, n: string, labels: Labels,
                                ports: seq<PortMapping>, ip: string)
    requires n in cfg.routers && PortLabel(n) in labels
    requires var name := ServiceName(cfg.routers[n], n);
             name in cfg.services && Usable(cfg.services[name]) &&
             cfg.services[name].loadBalancer.value.servers[0].url != ""
    ensures var name := ServiceName(cfg.routers[n], n);
            var port := labels[PortLabel(n)];
            var before := cfg.services[name].loadBalancer.value.servers;
            var r := RouterStep(cfg, n, labels, ports, ip);
            r.Ok? && Usable(r.value.services[name]) &&
            r.value.services[name].loadBalancer.value.servers
              == before + [UrlServer(Url("http", BindingIp(ip, ports, port), port))]
  {
  }

  /** A labelled router whose defined service has no first server to read panics. */
  lemma RouterStepPanics(cfg: HttpConfiguration, n: string, labels: Labels,
                         ports: seq<PortMapping>, ip: string)
    requires n in cfg.routers && PortLabel(n) in labels
    requires var name := ServiceName(cfg.routers[n], n);
             name in cfg.services && !Usable(cfg.services[name])
    ensures var name := ServiceName(cfg.routers[n], n);
            RouterStep(cfg, n, labels, ports, ip) ==
              if cfg.services[name].loadBalancer.None? then Err(NilLoadBalancer(name)) else Err(NoServers(name))
  {
  }

  /** A labelled router is translated without a panic exactly when its service is absent or usable. */
  lemma RouterStepOkIff(cfg: HttpConfiguration, n: string, labels: Labels,
                        ports: seq<PortMapping>, ip: string)
    requires n in cfg.routers
    ensures RouterStep(cfg, n, labels, ports, ip).Err? <==> Breaks(cfg, n, labels)
  {
  }

  /** Router `n` is labelled and targets a defined service whose first server cannot be read. */
  predicate Breaks(cfg: HttpConfiguration, n: string, labels: Labels)
  {
    n in cfg.routers && PortLabel(n) in labels &&
    ServiceName(cfg.routers[n], n) in cfg.services &&
    !Usable(cfg.services[ServiceName(cfg.routers[n], n)])
  }

  /** The names of the services targeted by the labelled routers of `order`. */
  function TargetServices(routers: map<string, Router>, order: seq<string>, labels: Labels): set<string>
  {
    set m | m in order && m in routers && PortLabel(m) in labels :: ServiceName(routers[m], m)
  }

  /**
   * After the router loop, each visited router with a port label names its
   * service explicitly (its own name when it was unset) and every other
   * router is unchanged, whatever the visiting order.
   */
  lemma {:induction false} RoutersStepRouters(cfg: HttpConfiguration, order: seq<string>, labels: Labels,
                                              ports: seq<PortMapping>, ip: string)
    requires forall n :: n in order ==> n in cfg.routers
    ensures var r := RoutersStep(cfg, order, labels, ports, ip);
            r.Ok? ==> forall m :: m in cfg.routers ==>
              r.value.routers[m] ==
                if m in order && PortLabel(m) in labels then cfg.routers[m].(service := ServiceName(cfg.routers[m], m))
                else cfg.routers[m]
    decreases |order|
  {
    if order != [] {
      var n := order[0];
      var step := RouterStep(cfg, n, labels, ports, ip);
      if step.Ok? {
        var next := step.value;
        if PortLabel(n) in labels {
          RouterStepNamesService(cfg, n, labels, ports, ip);
        } else {
          RouterStepSkipsUnlabelled(cfg, n, labels, ports, ip);
        }
        RoutersStepRouters(next, order[1..], labels, ports, ip);
        forall m | m in cfg.routers && m in order[1..] ensures m in order { }
      }
    }
  }

  /**
   * After the router loop, the services are the ones the fragment defined
   * plus the services targeted by the visited routers with a port label.
   */
  lemma {:induction false} RoutersStepServiceNames(cfg: HttpConfiguration, order: seq<string>, labels: Labels,
                                                   ports: seq<PortMapping>, ip: string)
    requires forall n :: n in order ==> n in cfg.routers
    ensures var r := RoutersStep(cfg, order, labels, ports, ip);
            r.Ok? ==> r.value.services.Keys == cfg.services.Keys + TargetServices(cfg.routers, order, labels)
    decreases |order|
  {
    if order != [] {
      var n := order[0];
      var rest := order[1..];
      var step := RouterStep(cfg, n, labels, ports, ip);
      if step.Ok? {
        var next := step.value;
        RoutersStepServiceNames(next, rest, labels, ports, ip);
        if PortLabel(n) in labels {
          RouterStepNamesService(cfg, n, labels, ports, ip);
          assert TargetServices(next.routers, rest, labels) + {ServiceName(cfg.routers[n], n)}
              == TargetServices(cfg.routers, order, labels);
        } else {
          RouterStepSkipsUnlabelled(cfg, n, labels, ports, ip);
          assert TargetServices(next.routers, rest, labels) == TargetServices(cfg.routers, order, labels);
        }
      }
    }
  }

  /**
   * The router loop panics exactly when some visited router with a port
   * label targets a defined service whose first server cannot be read;
   * services it creates or fills never make a later router panic.
   */
  lemma {:induction false} RoutersStepFailsIff(cfg: HttpConfiguration, order: seq<string>, labels: Labels,
                                               ports: seq<PortMapping>, ip: string)
    requires forall n :: n in order ==> n in cfg.routers
    ensures RoutersStep(cfg, order, labels, ports, ip).Err? <==>
            exists k :: 0 <= k < |order| && Breaks(cfg, order[k], labels)
    decreases |order|
  {
    if order != [] {
      var n := order[0];
      var rest := order[1..];
      RouterStepOkIff(cfg, n, labels, ports, ip);
      var step := RouterStep(cfg, n, labels, ports, ip);
      if step.Err? {
        assert Breaks(cfg, order[0], labels);
      } else {
        var next := step.value;
        RoutersStepFailsIff(next, rest, labels, ports, ip);
        if PortLabel(n) in labels {
          RouterStepNamesService(cfg, n, labels, ports, ip);
        } else {
          RouterStepSkipsUnlabelled(cfg, n, labels, ports, ip);
        }
        forall m | m in cfg.routers ensures Breaks(next, m, labels) <==> Breaks(cfg, m, labels) {
        }
        if exists k :: 0 <= k < |order| && Breaks(cfg, order[k], labels) {
          var k :| 0 <= k < |order| && Breaks(cfg, order[k], labels);
          assert k != 0;
          assert Breaks(next, rest[k - 1], labels);
        }
        if exists k :: 0 <= k < |rest| && Breaks(next, rest[k], labels) {
          var k :| 0 <= k < |rest| && Breaks(next, rest[k], labels);
          assert Breaks(cfg, order[k + 1], labels);
        }
      }
    }
  }
}
