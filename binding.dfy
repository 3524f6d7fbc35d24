/**
 * Which label gives a router's backend port, and which host IP the backend
 * URL is built from.
 */
module Binding {
  import opened Podman
  import Decimal

  /** The label whose value is the backend port of router `routerName`. */
  function PortLabel(routerName: string): (key: string)
    ensures |key| == |routerName| + 47
    ensures key[..22] == "traefik.http.services." && key[|key| - 25..] == ".loadbalancer.server.port"
    ensures key[22..|key| - 25] == routerName
  {
    "traefik.http.services." + routerName + ".loadbalancer.server.port"
  }

  /**
   * The test applied to each published port mapping, with `&&` binding
   * tighter than `||`: a mapping on the labelled port whose host IP is not
   * the wildcard, or any mapping whose host IP is not empty.
   */
  predicate Overrides(m: PortMapping, port: string): (b: bool)
    ensures m.hostIP != "" ==> b
    ensures m.hostIP == "" ==> (b <==> Decimal.Format(m.hostPort as nat) == port)
  {
    (Decimal.Format(m.hostPort as nat) == port && m.hostIP != "0.0.0.0") || m.hostIP != ""
  }

  /** The bind IP after scanning `ports` in order, starting from `ip`. */
  function BindingIp(ip: string, ports: seq<PortMapping>, port: string): string
    decreases |ports|
  {
    if ports == [] then ip
    else if Overrides(ports[|ports| - 1], port) then ports[|ports| - 1].hostIP
    else BindingIp(ip, ports[..|ports| - 1], port)
  }

  /** `k` is the last position in `ports` whose mapping overrides the bind IP. */
  predicate LastOverride(ports: seq<PortMapping>, port: string, k: int)
  {
    0 <= k < |ports| && Overrides(ports[k], port) &&
    forall j :: k < j < |ports| ==> !Overrides(ports[j], port)
  }

  /** The scan over the container's port mappings, one mapping at a time. */
  method ResolveBindingIp(ip: string, ports: seq<PortMapping>, port: string) returns (bindingIp: string)
    ensures bindingIp == BindingIp(ip, ports, port)
  {
    bindingIp := ip;
    var i := 0;
    while i < |ports|
      invariant 0 <= i <= |ports|
      invariant bindingIp == BindingIp(ip, ports[..i], port)
    {
      assert ports[..i + 1][..i] == ports[..i];
      if Overrides(ports[i], port) {
        bindingIp := ports[i].hostIP;
      }
      i := i + 1;
    }
    assert ports[..i] == ports;
  }

  /** Distinct routers are looked up under distinct labels. */
  lemma PortLabelInjective(a: string, b: string)
    ensures PortLabel(a) == PortLabel(b) <==> a == b
  {
    if PortLabel(a) == PortLabel(b) {
      assert a == PortLabel(a)[22..|PortLabel(a)| - 25];
    }
  }

  /**
   * The override test as written is equivalent to "the host IP is not
   * empty, or the mapping's host port renders as the labelled port": a
   * wildcard or concrete host IP on any port overrides, and an empty host
   * IP overrides (with "") only on the labelled port, which must then be the
   * canonical decimal numeral of that host port.
   */
  lemma OverridesSimplified(m: PortMapping, port: string)
    ensures Overrides(m, port) <==>
            m.hostIP != "" || (Decimal.IsCanonical(port) && Decimal.Parse(port) == m.hostPort as nat)
  {
    Decimal.FormatEqualsIff(m.hostPort as nat, port);
  }

  /**
   * The bind IP is the default when no mapping overrides it, and otherwise
   * the host IP of the last overriding mapping in list order.
   */
  lemma {:induction false} BindingIpLastOverride(ip: string, ports: seq<PortMapping>, port: string)
    ensures (forall k :: 0 <= k < |ports| ==> !Overrides(ports[k], port)) ==> BindingIp(ip, ports, port) == ip
    ensures (exists k :: 0 <= k < |ports| && Overrides(ports[k], port)) ==> exists k :: LastOverride(ports, port, k)
    ensures forall k :: LastOverride(ports, port, k) ==> BindingIp(ip, ports, port) == ports[k].hostIP
    decreases |ports|
  {
    if ports != [] {
      var n := |ports| - 1;
      var init := ports[..n];
      BindingIpLastOverride(ip, init, port);
      if Overrides(ports[n], port) {
        assert LastOverride(ports, port, n);
        forall k | LastOverride(ports, port, k) ensures k == n {
        }
      } else {
        forall k | 0 <= k < n && Overrides(init[k], port)
          ensures LastOverride(ports, port, k) == LastOverride(init, port, k)
        {
        }
        if exists k :: 0 <= k < |ports| && Overrides(ports[k], port) {
          var k :| 0 <= k < |ports| && Overrides(ports[k], port);
          assert init[k] == ports[k];
          var last :| LastOverride(init, port, last);
          assert LastOverride(ports, port, last);
        }
        forall k | LastOverride(ports, port, k) ensures BindingIp(ip, ports, port) == ports[k].hostIP {
          assert init[k] == ports[k];
          assert LastOverride(init, port, k);
        }
        forall k | 0 <= k < n && !Overrides(ports[k], port) ensures !Overrides(init[k], port) {
        }
      }
    }
  }
}
