# podman-http-traefik, modelled in Dafny

podman-http-traefik asks a Podman socket for the running containers labelled
`traefik.enabled=true`. It decodes each container's `traefik.*` labels into a
Traefik dynamic-configuration fragment. For each router with a port label,
it then gives the service that router targets a backend URL built from a
bind IP. If that service's first server has an empty URL, the URL is filled
in from that server's own scheme and port. Otherwise
`http://<bind IP>:<label port>` is appended as a new server. A labelled
router whose service has no servers load balancer, or an empty server list,
makes the program panic. The fragments are merged, and the merged document is
served on `/traefik/config` as a JSON object that holds only the non-empty
protocol sections.

This project models that translation and the endpoint's section filter, and
proves what they do:

- `dynamic.dfy` (`Dynamic`): routers, services, load-balancer servers, and
  the HTTP, TCP and UDP sections of a configuration.
- `podman.dfy` (`Podman`): a container's identifier, labels and published
  port mappings. Host ports are `uint16`.
- `decimal.dfy` (`Decimal`): base-10 rendering of a host port. It is proved
  canonical and injective, and parsing is proved to invert it.
- `binding.dfy` (`Binding`): the name of the port label and the scan that
  picks the bind IP. The scan is a loop, proved against a specification
  function. The override test is kept exactly as the code writes it.
- `translate.dfy` (`Translate`): one iteration of the router loop and the
  router loop are imperative methods, each proved equal to a specification
  function. The container loop is the loop inside the method
  `GetTraefikConfig`, proved equal to the specification function
  `TranslateContainers`. A runtime panic is an error result.
- `router_properties.dfy` (`RouterProperties`): what one router step does in
  each of its cases. It also states what a whole router loop does to the
  routers and service names, and exactly when it panics. None of these
  statements depend on the order in which routers are visited.
- `container_properties.dfy` (`ContainerProperties`): which identifiers the
  container loop records and what it stores under each. It also states
  exactly when the loop yields no configuration.
- `handler.dfy` (`Handler`): the section filter and the configuration
  endpoint's three possible answers.

Inputs that the code obtains from outside become parameters:

- the outcome of connecting to the runtime and listing the containers (a
  list or an error text);
- the label decoder, as a function from labels to a configuration or an
  error;
- the order in which each fragment's routers are visited (Go's map order is
  unspecified);
- the merge of the per-container fragments;
- the bind IP read from `PTOT_IP`.

Two facts about main.go decide the bind IP:

- The override test at main.go:59 is `(FormatUint(HostPort) == port &&
  HostIP != "0.0.0.0") || HostIP != ""`, since `&&` binds tighter than `||`.
  So every mapping with a non-empty host IP overrides the bind IP, on any
  port and including the wildcard `0.0.0.0`. A mapping on the labelled port
  with an empty host IP sets it to `""`. `Binding.OverridesSimplified` and
  `Binding.BindingIpLastOverride` state this behaviour.
- `PTOT_IP` is read with no default (main.go:35), so an unset variable gives
  the empty bind IP.

## Model

| member | source | states |
|---|---|---|
| `Decimal.FormatCanonical` | main.go:59 | the rendering of a host port is a non-empty string of digits with no leading zero |
| `Decimal.ParseFormat` | main.go:59 | parsing the rendering of `n` gives back `n` |
| `Decimal.FormatInjective` | main.go:59 | two host ports render alike exactly when they are equal |
| `Decimal.FormatEqualsIff` | main.go:59 | a label value equals the rendering of a host port exactly when it is the canonical numeral of that port (so "08080" never matches 8080) |
| `Decimal.Format` | main.go:59 | `strconv.FormatUint(…, 10)` of a host port: a non-empty string of decimal digits |
| `Binding.PortLabel` | main.go:52 | the label key looked up for a router: `traefik.http.services.` then the router name then `.loadbalancer.server.port` |
| `Binding.PortLabelInjective` | main.go:52 | distinct routers are looked up under distinct label keys |
| `Binding.Overrides` | main.go:59 | the override test as written: a non-empty host IP always overrides; an empty one overrides exactly when the rendered host port equals the labelled port |
| `Binding.ResolveBindingIp` | main.go:57-62 | the loop over the port mappings ends with the bind IP the specification function gives |
| `Binding.OverridesSimplified` | main.go:59 | the test as written, with `&&` binding tighter than the disjunction, holds exactly when the host IP is non-empty or the host port is the labelled port |
| `Binding.BindingIpLastOverride` | main.go:57-62 | the bind IP is the default when no mapping passes the test, and otherwise the host IP of the last mapping that passes it |
| `Translate.RouterStep` | main.go:51-86 | translating one router keeps the set of router names, and its only failures are the two panics of the unguarded `Servers[0]` |
| `Translate.TranslateRouter` | main.go:52-85 | the statement-by-statement router iteration computes `RouterStep` |
| `Translate.NewService` | main.go:69-77 | the service created for a missing name has a load balancer with exactly one server, whose URL is non-empty |
| `Translate.AddBackend` | main.go:78-83 | fill or append: the list grows by one exactly when the first URL was set; afterwards the first URL is non-empty; a set first server and all later servers are kept |
| `Translate.RoutersStep` | main.go:51-87 | the router loop keeps the set of router names and fails only by panicking |
| `Translate.TranslateRouters` | main.go:51-87 | the router loop, run in the given order, computes `RoutersStep` |
| `Translate.TranslateContainers` | main.go:43-89 | the container loop fails only by panicking, never because of a label that does not decode |
| `Translate.TranslateFragment` | main.go:51-88 | the fragment stored for a container: its HTTP section after the router loop, with the same router names; TCP and UDP sections unchanged; failures only by panic |
| `Translate.GetTraefikConfig` | main.go:28-90 | a failed connection or listing gives the error "unable to list containers: …"; otherwise the container loop's records are merged, or its panic is passed on |
| `RouterProperties.RouterStepSkipsUnlabelled` | main.go:52-56 | a router without `traefik.http.services.<router>.loadbalancer.server.port` leaves the fragment unchanged, including its own unset service |
| `RouterProperties.RouterStepNamesService` | main.go:63-85 | a labelled router ends up naming its service (its own name if unset); that service is stored and has a first server; all other routers and services are unchanged |
| `RouterProperties.RouterStepCreatesService` | main.go:68-83 | a missing service is created and ends with exactly two servers, both at `http://<bind IP>:<port>` |
| `RouterProperties.RouterStepFillsFirstServer` | main.go:78-79 | an empty first URL becomes `<scheme>://<bind IP>:<port>` from that server's own scheme and port; the length and the other servers are unchanged |
| `RouterProperties.RouterStepAppendsServer` | main.go:80-83 | a non-empty first URL leads to exactly one `http://<bind IP>:<port>` server appended after the unchanged earlier ones |
| `RouterProperties.RouterStepPanics` | main.go:68-78 | a defined service with no servers load balancer, or with an empty server list, panics |
| `RouterProperties.RouterStepOkIff` | main.go:52-83 | one router panics exactly when it is labelled and its defined service has no first server |
| `RouterProperties.RoutersStepRouters` | main.go:51-67 | after the router loop, each labelled router names its service explicitly and every other router is unchanged, whatever the visiting order |
| `RouterProperties.RoutersStepServiceNames` | main.go:63-85 | after the router loop, the service names are the fragment's own plus those targeted by the labelled routers |
| `RouterProperties.RoutersStepFailsIff` | main.go:51-87 | the router loop panics exactly when some labelled router targets a defined service with no first server, whatever the visiting order |
| `ContainerProperties.RecordedIds` | main.go:43-89 | the recorded identifiers are exactly those of the containers whose labels decode |
| `ContainerProperties.RecordedKept` | main.go:88 | an entry is overwritten only by a later decoded container with the same identifier |
| `ContainerProperties.ContainersFailIff` | main.go:43-89 | the run yields nothing exactly when some decoded container's fragment panics; a decode failure never stops the loop |
| `ContainerProperties.RecordedFragments` | main.go:45-88 | with distinct identifiers, each decoded container is stored under its identifier with its translated fragment, and a container that fails to decode adds no entry |
| `Handler.Sections` | main.go:104-113 | the object has the key `http` (`tcp`, `udp`) exactly when that section has routers or services, holds that section under it, and has no other key |
| `Handler.TraefikHandler` | main.go:94-115 | a listing failure answers 500 with "Failed to get Traefik config: unable to list containers: …" and a newline; a panic drops the request; otherwise the answer is the filtered merged configuration |

## Left out

- Connecting to the Podman socket and listing the containers (main.go:23-40) is socket I/O through the Podman client library. The model takes the listing outcome as an input. Both failure paths produce the same message, so one error text stands for either. The socket path and its `PTOC_SOCKET` default are not modelled.
- `label.DecodeConfiguration` (main.go:45) is a Traefik library call. The model takes it as a function parameter that returns a configuration or an error. Its maps are taken to be present, so the code's write into a possibly nil services map (main.go:85) is not modelled.
- `provider.Merge` (main.go:90) is a Traefik library call. The model takes it as a function parameter and proves nothing about the merged document.
- Go map iteration order is unspecified. Each fragment's router order is an input that visits every router once. The properties proved do not depend on it.
- Go pointers: routers and services are updated through pointers in the Go code. The model updates map entries by value. The decoder gives each key its own object, so nothing else observes the difference.
- `Server` carries only URL, scheme and port. `Router` carries only its rule and service. Their other Traefik fields are carried through untouched by the Go code and are omitted. Whole parts of the configuration are omitted too: the TLS section, and the HTTP section's middlewares and servers transports. The code never reads or writes them, and the section filter (main.go:105-112) tests only routers and services. TCP and UDP sections keep only router service names and server addresses.
- `Podman.PortMapping` omits the range and protocol fields, which the code does not read.
- JSON encoding, response headers, the HTTP server, `main` and the `PTOC_PORT` and `PTOT_IP` reads are I/O. The endpoint's answer is modelled as a value: an object of sections, a plain-text error with its status, or a dropped request.
- Log output is a side effect and is left out.
